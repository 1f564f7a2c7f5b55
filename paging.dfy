/** Pagination bookkeeping: following a response's `next` pointer until it
    is null, and the offset/append rules of the incremental lists. */
module Paging {
  import opened Records
  import opened Sequences

  /** The page size of the liked-songs request (spotifind/state.py:110-113). */
  const LikedPageSize := 50

  /** The items of every page of a response chain, in order. */
  function AllItems<T>(r: Response<T>): seq<T>
  {
    r.items + match r.next { case Some(n) => AllItems(n) case None => [] }
  }

  /** The pages of a response chain, one per request made. */
  function Pages<T>(r: Response<T>): (ps: seq<seq<T>>)
    ensures |ps| >= 1 && ps[0] == r.items
  {
    [r.items] + match r.next { case Some(n) => Pages(n) case None => [] }
  }

  /** Accumulating a chain keeps every page, in order, and nothing else. */
  lemma {:induction false} AllItemsArePages<T>(r: Response<T>)
    ensures AllItems(r) == Flatten(Pages(r))
  {
    match r.next {
      case Some(n) =>
        AllItemsArePages(n);
        assert Pages(r)[1..] == Pages(n);
      case None =>
        assert Pages(r)[1..] == [];
    }
  }

  /** An item is collected exactly when some page of the chain holds it. */
  lemma CollectedIffOnSomePage<T>(r: Response<T>, x: T)
    ensures x in AllItems(r) <==> exists j :: 0 <= j < |Pages(r)| && x in Pages(r)[j]
  {
    AllItemsArePages(r);
    InFlatten(Pages(r), x);
  }

  /** The `while results['next']: results = next(results); items.extend(...)`
      loop of spotifind/state.py:208-212 and 229-233. */
  method CollectAll<T>(first: Response<T>) returns (items: seq<T>)
    ensures items == AllItems(first)
  {
    var page := first;
    items := page.items;
    while page.next.Some?
      invariant AllItems(first) == items + AllItems(page)[|page.items|..]
      decreases page
    {
      page := page.next.value;
      items := items + page.items;
    }
  }

  /** Python's `xs * n` on lists. */
  function Repeat<T>(s: seq<T>, n: nat): (r: seq<T>)
    ensures |r| == n * |s|
    ensures n > 0 ==> r[..|s|] == s
    ensures forall i :: 0 <= i < |r| ==> r[i] in s
  {
    if n == 0 then [] else s + Repeat(s, n - 1)
  }

  /** The stored search results after a page arrives:
      `stored * (not initial) + new_items` (spotifind/state.py:537-542, 555-559). */
  function NextResults<T>(stored: seq<T>, page: seq<T>, initial: bool): seq<T>
  {
    Repeat(stored, if initial then 0 else 1) + page
  }

  /** A fresh query replaces the stored list; "load more" appends after it. */
  lemma NextResultsReplacesOrAppends<T>(stored: seq<T>, page: seq<T>, initial: bool)
    ensures initial ==> NextResults(stored, page, initial) == page
    ensures !initial ==> NextResults(stored, page, initial) == stored + page
  {
    if !initial {
      assert Repeat(stored, 1) == stored + Repeat(stored, 0);
    }
  }

  /** The offset a search request asks for: none for a fresh query, the
      number of results already held for "load more"
      (spotifind/state.py:532, 550). */
  function SearchOffset(initial: bool, held: nat): (o: Option<nat>)
    ensures initial <==> o.None?
    ensures o.Some? ==> o.value == held
  {
    if initial then None else Some(held)
  }
}
