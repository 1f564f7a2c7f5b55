/** Disambiguation of playlist names (spotifind/state.py:216-224): the k-th
    playlist (k >= 2) carrying a name already seen is renamed "name (k)". */
module PlaylistNames {
  import opened Records
  import opened Text

  /** `f"{name} ({k})"`. */
  function Numbered(name: string, k: nat): string
  {
    name + " (" + NatToString(k) + ")"
  }

  /** How many of `names[0..i]` (inclusive) equal `names[i]`. */
  function Occurrence(names: seq<string>, i: nat): nat
    requires i < |names|
  {
    multiset(names[..i + 1])[names[i]]
  }

  /** The name the i-th playlist ends up with. */
  function DisplayName(names: seq<string>, i: nat): string
    requires i < |names|
  {
    var k := Occurrence(names, i);
    if k == 1 then names[i] else Numbered(names[i], k)
  }

  function Names(pls: seq<Playlist>): (r: seq<string>)
    ensures |r| == |pls| && forall i :: 0 <= i < |pls| ==> r[i] == pls[i].name
  {
    seq(|pls|, i requires 0 <= i < |pls| => pls[i].name)
  }

  /** The playlists after renaming: only names change. */
  function Disambiguated(pls: seq<Playlist>): seq<Playlist>
  {
    seq(|pls|, i requires 0 <= i < |pls| => pls[i].(name := DisplayName(Names(pls), i)))
  }

  /** Renaming keeps the number and the order of the playlists: the first
      playlist of each name keeps it, a later one becomes "name (k)" for
      its occurrence number k >= 2, and nothing but the name changes. */
  lemma DisambiguatedKeepsPlaylists(pls: seq<Playlist>, i: nat)
    requires i < |pls|
    ensures |Disambiguated(pls)| == |pls|
    ensures Disambiguated(pls)[i].uri == pls[i].uri && Disambiguated(pls)[i].hasGenres == pls[i].hasGenres
    ensures (forall j :: 0 <= j < i ==> pls[j].name != pls[i].name) ==> Disambiguated(pls)[i].name == pls[i].name
    ensures (exists j :: 0 <= j < i && pls[j].name == pls[i].name) ==>
      Occurrence(Names(pls), i) >= 2
      && Disambiguated(pls)[i].name == Numbered(pls[i].name, Occurrence(Names(pls), i))
  {
    var names := Names(pls);
    assert forall j :: 0 <= j < |pls| ==> names[j] == pls[j].name;
    FirstKeptRepeatsNumbered(names, i);
  }

  /** The renaming loop, in place on the fetched playlist objects: a count
      per original name, incremented on each repeat. */
  method DisambiguateNames(a: array<Playlist>)
    modifies a
    ensures a[..] == Disambiguated(old(a[..]))
  {
    ghost var orig := a[..];
    ghost var names := Names(orig);
    var counts: map<string, nat> := map[];
    var i := 0;
    while i < a.Length
      invariant 0 <= i <= a.Length
      invariant forall j :: i <= j < a.Length ==> a[j] == orig[j]
      invariant a[..i] == Disambiguated(orig)[..i]
      invariant CountsMatch(counts, names[..i])
    {
      var name := a[i].name;
      assert name == names[i] && a[i] == orig[i];
      CountsStep(counts, names, i);
      if name in counts {
        counts := counts[name := counts[name] + 1];
        a[i] := a[i].(name := Numbered(name, counts[name]));
      } else {
        counts := counts[name := 1];
      }
      i := i + 1;
    }
    assert a[..] == Disambiguated(orig);
  }

  /** `counts` holds, for each name seen so far, how often it was seen. */
  ghost predicate CountsMatch(counts: map<string, nat>, seen: seq<string>)
  {
    forall n :: (n in counts <==> n in multiset(seen)) && (n in counts ==> counts[n] == multiset(seen)[n])
  }

  /** One step of the counting loop keeps `counts` right and decides the name. */
  lemma CountsStep(counts: map<string, nat>, names: seq<string>, i: nat)
    requires i < |names| && CountsMatch(counts, names[..i])
    ensures var name := names[i];
      var counts' := counts[name := if name in counts then counts[name] + 1 else 1];
      CountsMatch(counts', names[..i + 1])
      && DisplayName(names, i) == if name in counts then Numbered(name, counts'[name]) else name
  {
    OccurrenceStep(names, i);
  }

  /** The occurrence number is one more than the count of the name so far. */
  lemma OccurrenceStep(names: seq<string>, i: nat)
    requires i < |names|
    ensures Occurrence(names, i) == multiset(names[..i])[names[i]] + 1
    ensures multiset(names[..i + 1]) == multiset(names[..i]) + multiset{names[i]}
  {
    assert names[..i + 1] == names[..i] + [names[i]];
  }

  lemma OccurrenceAtLeastOne(names: seq<string>, i: nat)
    requires i < |names|
    ensures Occurrence(names, i) >= 1
  {
    assert names[i] in names[..i + 1];
  }

  /** A later repeat of a name has a higher occurrence number. */
  lemma OccurrenceGrows(names: seq<string>, i: nat, j: nat)
    requires i < j < |names| && names[i] == names[j]
    ensures Occurrence(names, j) > Occurrence(names, i)
  {
    assert names[..j + 1] == names[..i + 1] + names[i + 1..j + 1];
    assert names[j] in names[i + 1..j + 1];
  }

  /** The first playlist with a given name keeps it; every later one is
      renamed with its occurrence number, which is at least 2. */
  lemma FirstKeptRepeatsNumbered(names: seq<string>, i: nat)
    requires i < |names|
    ensures (forall j :: 0 <= j < i ==> names[j] != names[i]) ==> DisplayName(names, i) == names[i]
    ensures (exists j :: 0 <= j < i && names[j] == names[i]) ==>
      Occurrence(names, i) >= 2 && DisplayName(names, i) == Numbered(names[i], Occurrence(names, i))
  {
    if forall j :: 0 <= j < i ==> names[j] != names[i] {
      assert names[..i + 1] == names[..i] + [names[i]];
      assert names[i] !in names[..i];
    } else {
      var j :| 0 <= j < i && names[j] == names[i];
      OccurrenceAtLeastOne(names, j);
      OccurrenceGrows(names, j, i);
    }
  }

  /** "X (k)" determines both X and k. */
  lemma NumberedInjective(n1: string, k1: nat, n2: string, k2: nat)
    requires Numbered(n1, k1) == Numbered(n2, k2)
    ensures n1 == n2 && k1 == k2
  {
    var s1, s2 := NatToString(k1), NatToString(k2);
    var x := Numbered(n1, k1);
    var L := |x|;
    assert x == n1 + " (" + s1 + ")" && x == n2 + " (" + s2 + ")";
    LastParen(x, n1, s1);
    LastParen(x, n2, s2);
    assert |n1| == |n2|;
    assert n1 == x[..|n1|] == n2;
    assert s1 == x[|n1| + 2..L - 1] == s2;
    NatToStringInjective(k1, k2);
  }

  /** In "X (digits)" the parenthesis after X is the last one. */
  lemma LastParen(x: string, n: string, s: string)
    requires x == n + " (" + s + ")"
    requires forall i :: 0 <= i < |s| ==> IsDigit(s[i])
    ensures x[|n| + 1] == '('
    ensures forall q :: |n| + 1 < q < |x| ==> x[q] != '('
  {
    forall q | |n| + 1 < q < |x| ensures x[q] != '(' {
      if q < |x| - 1 {
        assert x[q] == s[q - |n| - 2];
      }
    }
  }

  /** A name of the shape the renaming produces, "X (k)" with k >= 2. */
  ghost predicate LooksNumbered(name: string)
  {
    exists x: string, k: nat :: k >= 2 && name == Numbered(x, k)
  }

  /** When no fetched name already looks like "X (k)", the renamed names are
      pairwise different. */
  lemma DisplayNamesUnique(names: seq<string>, i: nat, j: nat)
    requires forall m :: 0 <= m < |names| ==> !LooksNumbered(names[m])
    requires i < j < |names|
    ensures DisplayName(names, i) != DisplayName(names, j)
  {
    var ki, kj := Occurrence(names, i), Occurrence(names, j);
    if DisplayName(names, i) == DisplayName(names, j) {
      OccurrenceAtLeastOne(names, i);
      OccurrenceAtLeastOne(names, j);
      if ki == 1 && kj == 1 {
        OccurrenceGrows(names, i, j);
      } else if ki != 1 && kj != 1 {
        NumberedInjective(names[i], ki, names[j], kj);
        OccurrenceGrows(names, i, j);
      } else if ki == 1 {
        assert names[i] == Numbered(names[j], kj);
        assert LooksNumbered(names[i]);
      }
    }
  }

  /** Without that precondition uniqueness fails: "a", "a", "a (2)" become
      "a", "a (2)", "a (2)". */
  lemma RenamedNameCanCollide()
    ensures DisplayName(["a", "a", "a (2)"], 1) == "a (2)"
    ensures DisplayName(["a", "a", "a (2)"], 2) == "a (2)"
  {
    var names := ["a", "a", "a (2)"];
    assert names[..2] == ["a", "a"];
    assert multiset(names[..2])["a"] == 2;
    assert names[..3] == names;
    assert multiset(names)["a (2)"] == 1;
    assert NatToString(2) == "2";
  }

  /** Fetching "Chill", "Chill", "Workout" yields "Chill", "Chill (2)", "Workout". */
  lemma ChillExample()
    ensures DisplayName(["Chill", "Chill", "Workout"], 0) == "Chill"
    ensures DisplayName(["Chill", "Chill", "Workout"], 1) == "Chill (2)"
    ensures DisplayName(["Chill", "Chill", "Workout"], 2) == "Workout"
  {
    var names := ["Chill", "Chill", "Workout"];
    assert names[..1] == ["Chill"];
    assert names[..2] == ["Chill", "Chill"];
    assert multiset(names[..2])["Chill"] == 2;
    assert names[..3] == names;
    assert multiset(names)["Workout"] == 1;
    assert NatToString(2) == "2";
  }
}
