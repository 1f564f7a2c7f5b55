/** Generic facts about sequences used across the model. */
module Sequences {

  /** Concatenation of a list of lists, in order (`flatten_list_of_lists`). */
  function Flatten<T>(ss: seq<seq<T>>): seq<T>
  {
    if ss == [] then [] else ss[0] + Flatten(ss[1..])
  }

  lemma {:induction false} FlattenAppend<T>(ss: seq<seq<T>>, s: seq<T>)
    ensures Flatten(ss + [s]) == Flatten(ss) + s
  {
    if ss == [] {
      assert ss + [s] == [s];
    } else {
      assert (ss + [s])[1..] == ss[1..] + [s];
      FlattenAppend(ss[1..], s);
    }
  }

  /** An element is in the concatenation exactly when it is in one of the parts. */
  lemma {:induction false} InFlatten<T>(ss: seq<seq<T>>, x: T)
    ensures x in Flatten(ss) <==> exists j :: 0 <= j < |ss| && x in ss[j]
  {
    if ss != [] {
      InFlatten(ss[1..], x);
      if x in Flatten(ss[1..]) {
        var j :| 0 <= j < |ss[1..]| && x in ss[1..][j];
        assert x in ss[j + 1];
      }
      if exists j :: 0 <= j < |ss| && x in ss[j] {
        var j :| 0 <= j < |ss| && x in ss[j];
        if j > 0 { assert ss[1..][j - 1] == ss[j]; }
      }
    }
  }

  predicate Distinct<T(==)>(s: seq<T>)
  {
    forall i, j :: 0 <= i < j < |s| ==> s[i] != s[j]
  }

  function Elements<T>(s: seq<T>): set<T>
  {
    set x | x in s
  }

  /** A list without repetitions has as many elements as its set. */
  lemma {:induction false} DistinctCardinality<T>(s: seq<T>)
    requires Distinct(s)
    ensures |Elements(s)| == |s|
  {
    if s != [] {
      var t := s[1..];
      assert Distinct(t) by {
        forall i, j | 0 <= i < j < |t| ensures t[i] != t[j] {
          assert t[i] == s[i + 1] && t[j] == s[j + 1];
        }
      }
      DistinctCardinality(t);
      assert s[0] !in t by {
        forall j | 0 <= j < |t| ensures t[j] != s[0] {
          assert t[j] == s[j + 1];
        }
      }
      assert Elements(s) == Elements(t) + {s[0]} by {
        assert s == [s[0]] + t;
      }
    }
  }
}
