/** The artist-genre cache of spotifind/state.py:120-153: only artists not
    cached yet are looked up, in batches of at most 50, and the answers are
    merged so that entries already cached win. */
module GenreCache {
  import opened Records
  import opened Sequences

  /** The artist lookup accepts at most this many URIs per request. */
  const ChunkSize := 50

  type GenreLookup = map<Uri, seq<Genre>>

  /** The artist lookup of the API: the artists answered for one batch of URIs. */
  type ArtistLookup = seq<Uri> -> seq<Artist>

  /** `set(a_uris).difference(set(existing.keys()))`. */
  function Pending(aUris: seq<Uri>, existing: GenreLookup): (p: set<Uri>)
    ensures forall u :: u in p <==> u in aUris && u !in existing
  {
    Elements(aUris) - existing.Keys
  }

  function Min(a: nat, b: nat): nat
  {
    if a <= b then a else b
  }

  /** `[s[i:i + 50] for i in range(0, len(s), 50)]`. */
  function Chunks<T>(s: seq<T>): seq<seq<T>>
    decreases |s|
  {
    if s == [] then [] else [s[..Min(ChunkSize, |s|)]] + Chunks(s[Min(ChunkSize, |s|)..])
  }

  /** ceil(a / 50). */
  function CeilDiv(a: nat): nat
  {
    (a + ChunkSize - 1) / ChunkSize
  }

  /** Chunking neither loses, repeats nor reorders anything. */
  lemma {:induction false} ChunksFlatten<T>(s: seq<T>)
    ensures Flatten(Chunks(s)) == s
    decreases |s|
  {
    if s != [] {
      var m := Min(ChunkSize, |s|);
      ChunksFlatten(s[m..]);
      assert Chunks(s)[1..] == Chunks(s[m..]);
      assert s == s[..m] + s[m..];
    }
  }

  /** Every chunk holds 1 to 50 elements, and there are ceil(|s| / 50) of them. */
  lemma {:induction false} ChunksShape<T>(s: seq<T>)
    ensures |Chunks(s)| == CeilDiv(|s|)
    ensures forall j :: 0 <= j < |Chunks(s)| ==> 1 <= |Chunks(s)[j]| <= ChunkSize
    decreases |s|
  {
    if s != [] {
      var m := Min(ChunkSize, |s|);
      var cs := Chunks(s);
      ChunksShape(s[m..]);
      assert cs[1..] == Chunks(s[m..]);
      forall j | 0 <= j < |cs| ensures 1 <= |cs[j]| <= ChunkSize {
        if j > 0 { assert cs[j] == cs[1..][j - 1]; }
      }
    }
  }

  /** Chunking the rest of a list from position `i` on takes the chunk
      `s[i:i + 50]` and continues after it. */
  lemma ChunksFrom<T>(s: seq<T>, i: nat)
    requires i < |s|
    ensures Chunks(s[i..]) == [s[i..Min(i + ChunkSize, |s|)]] + Chunks(s[Min(i + ChunkSize, |s|)..])
  {
    var m := Min(ChunkSize, |s| - i);
    assert s[i..][..m] == s[i..Min(i + ChunkSize, |s|)];
    assert s[i..][m..] == s[Min(i + ChunkSize, |s|)..];
  }

  /** `batches` is how the loop of spotifind/state.py:134-138 splits a
      repetition-free listing of the pending URIs. */
  ghost predicate IsBatching(batches: seq<seq<Uri>>, pending: set<Uri>)
  {
    var listed := Flatten(batches);
    Distinct(listed) && Elements(listed) == pending && batches == Chunks(listed)
  }

  /** Chunking a repetition-free listing of the pending URIs is a batching. */
  lemma ChunkingIsBatching(listed: seq<Uri>, pending: set<Uri>)
    requires Distinct(listed) && Elements(listed) == pending
    ensures IsBatching(Chunks(listed), pending)
    ensures |Chunks(listed)| == CeilDiv(|pending|)
    ensures forall j :: 0 <= j < |Chunks(listed)| ==> 1 <= |Chunks(listed)[j]| <= ChunkSize
  {
    ChunksFlatten(listed);
    BatchCount(Chunks(listed), pending);
  }

  /** The number of lookups is ceil(|pending| / 50), each of 1 to 50 URIs. */
  lemma BatchCount(batches: seq<seq<Uri>>, pending: set<Uri>)
    requires IsBatching(batches, pending)
    ensures |batches| == CeilDiv(|pending|)
    ensures forall j :: 0 <= j < |batches| ==> 1 <= |batches[j]| <= ChunkSize
  {
    DistinctCardinality(Flatten(batches));
    ChunksShape(Flatten(batches));
  }

  /** Each pending URI is requested in exactly one batch. */
  lemma RequestedOnce(batches: seq<seq<Uri>>, pending: set<Uri>, u: Uri)
    requires IsBatching(batches, pending)
    ensures u in pending <==> exists j :: 0 <= j < |batches| && u in batches[j]
  {
    InFlatten(batches, u);
  }

  /** Nothing pending means no lookup at all. */
  lemma NothingPendingNoBatches(batches: seq<seq<Uri>>)
    requires IsBatching(batches, {})
    ensures batches == []
  {
    DistinctCardinality(Flatten(batches));
    assert batches == Chunks<Uri>([]);
  }

  /** The answers of the lookups, in request order (`artists.extend(...)`). */
  function Fetched(batches: seq<seq<Uri>>, lookup: ArtistLookup): seq<Artist>
  {
    if batches == [] then []
    else Fetched(batches[..|batches| - 1], lookup) + lookup(batches[|batches| - 1])
  }

  lemma FetchedAppend(batches: seq<seq<Uri>>, chunk: seq<Uri>, lookup: ArtistLookup)
    ensures Fetched(batches + [chunk], lookup) == Fetched(batches, lookup) + lookup(chunk)
  {
    assert (batches + [chunk])[..|batches|] == batches;
  }

  /** `{a['uri']: a['genres'] for a in artists}`: a later answer for the
      same URI replaces an earlier one. */
  function DictOfArtists(artists: seq<Artist>): GenreLookup
  {
    if artists == [] then map[]
    else
      var last := artists[|artists| - 1];
      DictOfArtists(artists[..|artists| - 1])[last.uri := last.genres]
  }

  /** `genre_lookup.update(existing_genre_lookup)`: cached entries win. */
  function Merge(artists: seq<Artist>, existing: GenreLookup): GenreLookup
  {
    DictOfArtists(artists) + existing
  }

  function ArtistUris(artists: seq<Artist>): set<Uri>
  {
    set a | a in artists :: a.uri
  }

  /** The genres recorded for a URI are those of its last answer. */
  lemma {:induction false} DictOfArtistsLast(artists: seq<Artist>, u: Uri)
    ensures u in DictOfArtists(artists) <==> u in ArtistUris(artists)
    ensures u in DictOfArtists(artists) ==>
      exists j ::
        (0 <= j < |artists| && artists[j].uri == u
         && DictOfArtists(artists)[u] == artists[j].genres
         && forall k :: j < k < |artists| ==> artists[k].uri != u)
  {
    if artists != [] {
      var n := |artists| - 1;
      var front := artists[..n];
      DictOfArtistsLast(front, u);
      assert artists == front + [artists[n]];
      if artists[n].uri != u && u in DictOfArtists(artists) {
        var j :| 0 <= j < |front| && front[j].uri == u
          && DictOfArtists(front)[u] == front[j].genres
          && forall k :: j < k < |front| ==> front[k].uri != u;
        assert artists[j] == front[j];
      }
    }
  }

  /** After the merge every cached entry is present with its cached genres,
      and the new keys are exactly the answered URIs. */
  lemma MergeKeepsCache(artists: seq<Artist>, existing: GenreLookup)
    ensures Merge(artists, existing).Keys == existing.Keys + ArtistUris(artists)
    ensures forall u :: u in existing ==> Merge(artists, existing)[u] == existing[u]
  {
    forall u ensures u in DictOfArtists(artists) <==> u in ArtistUris(artists) {
      DictOfArtistsLast(artists, u);
    }
  }

  /** A fetched artist not cached before gets the genres of its last answer. */
  lemma MergeTakesLastAnswer(artists: seq<Artist>, existing: GenreLookup, u: Uri)
    requires u !in existing && u in ArtistUris(artists)
    ensures u in Merge(artists, existing)
    ensures exists j ::
      (0 <= j < |artists| && artists[j].uri == u
       && Merge(artists, existing)[u] == artists[j].genres
       && forall k :: j < k < |artists| ==> artists[k].uri != u)
  {
    DictOfArtistsLast(artists, u);
  }

  /** Every answer of a batch is among the fetched artists. */
  lemma {:induction false} InFetched(batches: seq<seq<Uri>>, lookup: ArtistLookup, j: nat, a: Artist)
    requires j < |batches| && a in lookup(batches[j])
    ensures a in Fetched(batches, lookup)
  {
    var n := |batches| - 1;
    if j < n {
      assert batches[..n][j] == batches[j];
      InFetched(batches[..n], lookup, j, a);
    }
  }

  /** The API answers every URI of every batch. */
  ghost predicate Answers(batches: seq<seq<Uri>>, lookup: ArtistLookup)
  {
    forall j, u :: 0 <= j < |batches| && u in batches[j] ==> u in ArtistUris(lookup(batches[j]))
  }

  /** When the API answers every URI it is asked about, the updated cache
      covers all requested artists, so a second call with the same URIs
      has nothing pending and makes no lookup. */
  lemma SecondCallFetchesNothing(aUris: seq<Uri>, existing: GenreLookup,
                                 batches: seq<seq<Uri>>, lookup: ArtistLookup)
    requires IsBatching(batches, Pending(aUris, existing))
    requires Answers(batches, lookup)
    ensures Pending(aUris, Merge(Fetched(batches, lookup), existing)) == {}
  {
    var merged := Merge(Fetched(batches, lookup), existing);
    MergeKeepsCache(Fetched(batches, lookup), existing);
    forall u | u in aUris ensures u in merged {
      if u !in existing {
        RequestedOnce(batches, Pending(aUris, existing), u);
        var j :| 0 <= j < |batches| && u in batches[j];
        var a :| a in lookup(batches[j]) && a.uri == u;
        InFetched(batches, lookup, j, a);
      }
    }
  }

  /** `list(s)`: the elements of a set in an order the model does not fix. */
  method ListOfSet<T>(s: set<T>) returns (r: seq<T>)
    ensures Distinct(r) && Elements(r) == s && |r| == |s|
  {
    r := [];
    var rest := s;
    while rest != {}
      invariant Distinct(r) && Elements(r) + rest == s && Elements(r) !! rest
      decreases |rest|
    {
      var x :| x in rest;
      r := r + [x];
      rest := rest - {x};
    }
    DistinctCardinality(r);
  }

  /** The loop of spotifind/state.py:134-138: one lookup per chunk of 50,
      the answers appended in request order. */
  method FetchInChunks(subset: seq<Uri>, lookup: ArtistLookup)
    returns (artists: seq<Artist>, batches: seq<seq<Uri>>)
    ensures batches == Chunks(subset)
    ensures artists == Fetched(batches, lookup)
  {
    artists := [];
    batches := [];
    var i := 0;
    while i < |subset|
      invariant 0 <= i <= |subset|
      invariant batches + Chunks(subset[i..]) == Chunks(subset)
      invariant artists == Fetched(batches, lookup)
    {
      var end := Min(i + ChunkSize, |subset|);
      var chunk := subset[i..end];
      ChunksFrom(subset, i);
      FetchedAppend(batches, chunk, lookup);
      assert (batches + [chunk]) + Chunks(subset[end..]) == batches + ([chunk] + Chunks(subset[end..]));
      artists := artists + lookup(chunk);
      batches := batches + [chunk];
      i := end;
    }
    assert subset[i..] == [];
    assert batches == batches + Chunks(subset[i..]);
  }

  /** `_update_genre_dict_from_artist_uris`: looks up the pending artists in
      chunks of 50 and merges the answers under the existing entries.
      `batches` are the URI lists sent to the lookup, in order. */
  method UpdateGenreDict(aUris: seq<Uri>, existing: GenreLookup, lookup: ArtistLookup)
    returns (genreLookup: GenreLookup, batches: seq<seq<Uri>>)
    ensures IsBatching(batches, Pending(aUris, existing))
    ensures |batches| == CeilDiv(|Pending(aUris, existing)|)
    ensures forall j :: 0 <= j < |batches| ==> 1 <= |batches[j]| <= ChunkSize
    ensures genreLookup == Merge(Fetched(batches, lookup), existing)
  {
    var subset := ListOfSet(Pending(aUris, existing));
    var artists;
    artists, batches := FetchInChunks(subset, lookup);
    ChunkingIsBatching(subset, Pending(aUris, existing));
    genreLookup := Merge(artists, existing);
  }
}
