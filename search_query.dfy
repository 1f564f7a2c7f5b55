/** The search query builder (spotifind/state.py:569-593): four optional
    clauses, each present when its switch is on and its text non-empty,
    concatenated in a fixed order and stripped of surrounding whitespace. */
module SearchQuery {
  import opened Text

  /** A search input: the text typed and whether its switch is on. */
  datatype Field = Field(value: string, enabled: bool)

  /** A clause is part of the query when enabled and non-empty. */
  predicate Active(f: Field)
  {
    f.enabled && |f.value| > 0
  }

  /** ` artist:"<value>"` (with a leading space). */
  function ArtistClause(f: Field): (c: string)
    ensures Active(f) <==> c != []
    ensures c != [] ==> |c| > 2 && c[0] == ' ' && c[1] == 'a' && c[|c| - 1] == '"'
  {
    if Active(f) then " artist:\"" + f.value + "\"" else ""
  }

  /** `track:"<value>"` (with no leading space). */
  function TrackClause(f: Field): (c: string)
    ensures Active(f) <==> c != []
    ensures c != [] ==> |c| > 2 && c[0] == 't' && c[|c| - 1] == '"'
  {
    if Active(f) then "track:\"" + f.value + "\"" else ""
  }

  /** ` genre:"<value>"` (with a leading space). */
  function GenreClause(f: Field): (c: string)
    ensures Active(f) <==> c != []
    ensures c != [] ==> |c| > 2 && c[0] == ' ' && c[1] == 'g' && c[|c| - 1] == '"'
  {
    if Active(f) then " genre:\"" + f.value + "\"" else ""
  }

  /** ` year:<value>` (with a leading space, no quotes). */
  function YearClause(f: Field): (c: string)
    ensures Active(f) <==> c != []
    ensures c != [] ==> c == " year:" + f.value
  {
    if Active(f) then " year:" + f.value else ""
  }

  /** The concatenation of a list of clauses, in order. */
  function Joined(clauses: seq<string>): string
  {
    if clauses == [] then "" else clauses[0] + Joined(clauses[1..])
  }

  /** The four clauses in query order. */
  function Clauses(artist: Field, name: Field, genre: Field, year: Field): seq<string>
  {
    [ArtistClause(artist), TrackClause(name), GenreClause(genre), YearClause(year)]
  }

  /** `combined_search_query`. */
  function CombinedQuery(artist: Field, name: Field, genre: Field, year: Field): string
  {
    Strip(Joined(Clauses(artist, name, genre, year)))
  }

  /** Joining the four clauses is plain concatenation. */
  lemma JoinedClauses(artist: Field, name: Field, genre: Field, year: Field)
    ensures Joined(Clauses(artist, name, genre, year))
      == QuotedClauses(artist, name, genre) + YearClause(year)
  {
    JoinedFour(ArtistClause(artist), TrackClause(name), GenreClause(genre), YearClause(year));
  }

  /** Joining four strings is concatenating them. */
  lemma JoinedFour(a: string, t: string, g: string, y: string)
    ensures Joined([a, t, g, y]) == a + t + g + y
  {
    assert Joined([y]) == y + Joined([]) == y;
    assert Joined([g, y]) == g + Joined([y]);
    assert Joined([t, g, y]) == t + Joined([g, y]);
    assert Joined([a, t, g, y]) == a + Joined([t, g, y]);
  }

  /** `search_disabled`. */
  predicate SearchDisabled(artist: Field, name: Field, genre: Field, year: Field)
  {
    |CombinedQuery(artist, name, genre, year)| == 0
  }

  /** The string with one leading blank removed, if it has one. */
  function DropLeadingBlank(s: string): (r: string)
    ensures s != [] && s[0] == ' ' ==> " " + r == s
    ensures !(s != [] && s[0] == ' ') ==> r == s
  {
    if s != [] && s[0] == ' ' then s[1..] else s
  }

  /** The artist, track and genre clauses, in that order. */
  function QuotedClauses(artist: Field, name: Field, genre: Field): string
  {
    ArtistClause(artist) + TrackClause(name) + GenreClause(genre)
  }

  /** A string whose first character is a keyword letter, or a blank
      followed by one. */
  predicate LeadsWithKeyword(s: string)
  {
    s != [] && if s[0] == ' ' then |s| > 1 && !IsSpace(s[1]) else !IsSpace(s[0])
  }

  /** The quoted clauses, when present, start with a keyword (after at most
      one blank) and end with a quote. */
  lemma QuotedClausesShape(artist: Field, name: Field, genre: Field)
    ensures var q := QuotedClauses(artist, name, genre);
      q != [] ==> (q[|q| - 1] == '"' && LeadsWithKeyword(q))
  {
    var a, t, g := ArtistClause(artist), TrackClause(name), GenreClause(genre);
    var q := a + t + g;
    if q != [] {
      if g != [] {
        assert q[|q| - 1] == g[|g| - 1];
      } else if t != [] {
        assert q == a + t && q[|q| - 1] == t[|t| - 1];
      } else {
        assert q == a;
      }
      if a != [] {
        assert q[0] == a[0] && q[1] == a[1];
      } else if t != [] {
        assert q[0] == t[0];
      } else {
        assert q == g;
      }
    }
  }

  /** Removing the leading blank only looks at the first piece. */
  lemma DropLeadingBlankAppend(a: string, b: string)
    requires a != []
    ensures DropLeadingBlank(a + b) == DropLeadingBlank(a) + b
  {
    if a[0] == ' ' {
      assert (a + b)[1..] == a[1..] + b;
    }
  }

  /** On a string that leads with a keyword, `lstrip` removes at most the
      one leading blank. */
  lemma LStripKeyword(s: string)
    requires LeadsWithKeyword(s)
    ensures LStrip(s) == DropLeadingBlank(s)
  {
    if s[0] == ' ' {
      assert s == " " + s[1..];
      LStripSpacePrefix(" ", s[1..]);
    }
  }

  /** The year clause with trailing whitespace of the year text removed. */
  function YearTail(year: Field): string
  {
    if Active(year) then " year:" + RStrip(year.value) else ""
  }

  /** What the stripped query is: the clauses with the leading blank of the
      first one dropped and, when the year clause ends the query, trailing
      whitespace of the year text removed. No other character is touched. */
  lemma CombinedQueryShape(artist: Field, name: Field, genre: Field, year: Field)
    ensures CombinedQuery(artist, name, genre, year)
      == DropLeadingBlank(QuotedClauses(artist, name, genre) + YearTail(year))
  {
    var q := QuotedClauses(artist, name, genre);
    JoinedClauses(artist, name, genre, year);
    QuotedClausesShape(artist, name, genre);
    Assoc(q, " year:", year.value);
    if Active(year) {
      StripWithYear(q, year.value);
    } else {
      StripNoYear(q);
    }
  }

  /** Without the year clause, `strip` drops only the first blank. */
  lemma StripNoYear(q: string)
    requires q != [] ==> (q[|q| - 1] == '"' && LeadsWithKeyword(q))
    ensures Strip(q) == DropLeadingBlank(q) && Strip(q + []) == DropLeadingBlank(q + [])
  {
    assert q + [] == q;
    if q != [] {
      LStripKeyword(q);
      var core := DropLeadingBlank(q);
      assert core[|core| - 1] == '"';
      assert RStrip(core) == core;
    }
  }

  /** With the year clause last, `strip` drops the first blank and the
      trailing whitespace of the year text. */
  lemma StripWithYear(q: string, v: string)
    requires q != [] ==> (q[|q| - 1] == '"' && LeadsWithKeyword(q))
    ensures Strip(q + (" year:" + v)) == DropLeadingBlank(q + (" year:" + RStrip(v)))
  {
    var head := q + " year:";
    var core := DropLeadingBlank(head);
    if q == [] {
      assert head == " year:" && core == "year:";
    } else {
      DropLeadingBlankAppend(q, " year:");
      assert core == DropLeadingBlank(q) + " year:";
      assert head[0] == q[0];
      if q[0] == ' ' { assert head[1] == q[1]; }
    }
    assert LeadsWithKeyword(head);
    assert core != [] && core[|core| - 1] == ':';
    var all := head + v;
    Assoc(q, " year:", v);
    Assoc(q, " year:", RStrip(v));
    assert LeadsWithKeyword(all) by {
      assert all[0] == head[0];
      if head[0] == ' ' { assert all[1] == head[1]; }
    }
    LStripKeyword(all);
    DropLeadingBlankAppend(head, v);
    DropLeadingBlankAppend(head, RStrip(v));
    RStripAppend(core, v);
  }

  /** The query is empty, and search disabled, exactly when no clause is
      active: every active clause brings a keyword, which `strip` keeps. */
  lemma QueryEmptyIff(artist: Field, name: Field, genre: Field, year: Field)
    ensures CombinedQuery(artist, name, genre, year) == []
      <==> !Active(artist) && !Active(name) && !Active(genre) && !Active(year)
    ensures SearchDisabled(artist, name, genre, year)
      <==> !Active(artist) && !Active(name) && !Active(genre) && !Active(year)
  {
    CombinedQueryShape(artist, name, genre, year);
    var q := QuotedClauses(artist, name, genre);
    var x := q + YearTail(year);
    assert |DropLeadingBlank(x)| >= |x| - 1;
    if Active(year) {
      assert |x| >= 6;
    } else if q != [] {
      assert |q| > 2;
    } else {
      assert x == [];
    }
  }

  /** Concatenation is associative. */
  lemma Assoc(a: string, b: string, c: string)
    ensures a + (b + c) == (a + b) + c
  {
  }

  /** The track clause has no leading blank, so an artist and a track with
      nothing else give `artist:"A"track:"N"` with no separator. */
  lemma ArtistTrackAdjacent(a: string, n: string, genre: Field, year: Field)
    requires a != [] && n != []
    requires !Active(genre) && !Active(year)
    ensures CombinedQuery(Field(a, true), Field(n, true), genre, year)
      == "artist:\"" + a + "\"track:\"" + n + "\""
  {
    CombinedQueryShape(Field(a, true), Field(n, true), genre, year);
    var q := QuotedClauses(Field(a, true), Field(n, true), genre);
    var artistPart, trackPart := " artist:\"" + a + "\"", "track:\"" + n + "\"";
    assert q + YearTail(year) == artistPart + trackPart;
    JoinClauses(a, n);
  }

  /** The two clauses written out as one string. */
  lemma JoinClauses(a: string, n: string)
    ensures (" artist:\"" + a + "\"") + ("track:\"" + n + "\"")
      == " " + ("artist:\"" + a + "\"track:\"" + n + "\"")
  {
  }

  /** A year alone, typed with trailing blanks, gives `year:2020`. */
  lemma YearOnlyExample(artist: Field, name: Field, genre: Field)
    requires !Active(artist) && !Active(name) && !Active(genre)
    ensures CombinedQuery(artist, name, genre, Field("2020  ", true)) == "year:2020"
  {
    CombinedQueryShape(artist, name, genre, Field("2020  ", true));
    RStripYear();
    var q, t := QuotedClauses(artist, name, genre), YearTail(Field("2020  ", true));
    assert q == [] && q + t == t;
    assert t == " year:" + "2020";
    YearLiteral();
  }

  lemma YearLiteral()
    ensures DropLeadingBlank(" year:" + "2020") == "year:2020"
  {
    assert " year:" + "2020" == " year:2020";
  }

  lemma RStripYear()
    ensures RStrip("2020  ") == "2020"
  {
    assert "2020  "[..5] == "2020 " && "2020 "[..4] == "2020";
  }
}
