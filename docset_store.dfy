/**
  The docset store (STADocSetStore): the loaded docsets, the docsets still
  being indexed, and search across the loaded ones or a chosen subset, whose
  per-docset matches are gathered and merged into one sequence ordered by
  symbol comparison.
 */
module DocSetStore {
  import opened Symbols
  import opened DocSets

  // ---------------------------------------------------------------------------
  // Ordering a merged result
  // ---------------------------------------------------------------------------

  /** Non-decreasing under symbol comparison. */
  predicate Sorted(s: seq<Symbol>)
  {
    forall i, j :: 0 <= i < j < |s| ==> LessEq(s[i], s[j])
  }

  /** Places `x` before the first element it does not sort after. */
  function Insert(x: Symbol, s: seq<Symbol>): (r: seq<Symbol>)
    requires Sorted(s)
    ensures Sorted(r)
    ensures multiset(r) == multiset(s) + multiset{x}
  {
    if s == [] then [x]
    else if LessEq(x, s[0]) then
      InsertFrontSorted(x, s);
      [x] + s
    else
      var rest := Insert(x, s[1..]);
      InsertConsSorted(x, s, rest);
      assert s == [s[0]] + s[1..];
      [s[0]] + rest
  }

  lemma InsertFrontSorted(x: Symbol, s: seq<Symbol>)
    requires Sorted(s) && s != [] && LessEq(x, s[0])
    ensures Sorted([x] + s)
  {
    forall j | 0 < j < |s| ensures LessEq(x, s[j]) {
      CompareTransitive(x, s[0], s[j]);
    }
  }

  lemma InsertConsSorted(x: Symbol, s: seq<Symbol>, rest: seq<Symbol>)
    requires Sorted(s) && s != [] && !LessEq(x, s[0])
    requires Sorted(rest) && multiset(rest) == multiset(s[1..]) + multiset{x}
    ensures Sorted([s[0]] + rest)
  {
    CompareTotal(x, s[0]);
    forall j | 0 <= j < |rest| ensures LessEq(s[0], rest[j]) {
      assert rest[j] in multiset(rest);
      if rest[j] != x {
        assert rest[j] in s[1..];
        var k :| 0 <= k < |s[1..]| && s[1..][k] == rest[j];
        assert s[k + 1] == rest[j];
      }
    }
  }

  /** Insertion sort under symbol comparison: an ordered permutation of the input. */
  function SortSymbols(s: seq<Symbol>): (r: seq<Symbol>)
    ensures Sorted(r)
    ensures multiset(r) == multiset(s)
  {
    if s == [] then []
    else
      assert s == s[..|s| - 1] + [s[|s| - 1]];
      Insert(s[|s| - 1], SortSymbols(s[..|s| - 1]))
  }

  // ---------------------------------------------------------------------------
  // Search across docsets
  // ---------------------------------------------------------------------------

  /** The matches of each docset, concatenated in docset order. */
  function Gather(docSets: seq<DocSet>, query: string, searchMethod: SearchMethod): (r: seq<Symbol>)
    reads docSets
    ensures forall i :: 0 <= i < |r| ==> Matches(r[i], query, searchMethod)
  {
    if docSets == [] then []
    else
      var last := docSets[|docSets| - 1];
      Gather(docSets[..|docSets| - 1], query, searchMethod) + Filter(last.symbols, query, searchMethod)
  }

  /** A symbol is gathered exactly when some searched docset stores it and it matches. */
  lemma {:induction false} GatherMembers(docSets: seq<DocSet>, query: string, searchMethod: SearchMethod, x: Symbol)
    ensures x in Gather(docSets, query, searchMethod) <==>
              Matches(x, query, searchMethod) && exists i :: 0 <= i < |docSets| && x in docSets[i].symbols
  {
    if docSets != [] {
      var init := docSets[..|docSets| - 1];
      var last := docSets[|docSets| - 1];
      GatherMembers(init, query, searchMethod, x);
      FilterMembers(last.symbols, query, searchMethod, x);
      if x in Gather(docSets, query, searchMethod) && x !in Gather(init, query, searchMethod) {
        assert x in docSets[|docSets| - 1].symbols;
      }
      if Matches(x, query, searchMethod) && exists i :: 0 <= i < |docSets| && x in docSets[i].symbols {
        var i :| 0 <= i < |docSets| && x in docSets[i].symbols;
        if i < |init| {
          assert init[i] == docSets[i];
        }
      }
    }
  }

  /** The merged, ordered result of searching `docSets`: what the completion handler receives. */
  function SearchResults(docSets: seq<DocSet>, query: string, searchMethod: SearchMethod): (r: seq<Symbol>)
    reads docSets
    ensures Sorted(r)
    ensures multiset(r) == multiset(Gather(docSets, query, searchMethod))
  {
    SortSymbols(Gather(docSets, query, searchMethod))
  }

  /**
    A symbol is in the result exactly when it matches and one of the searched
    docsets stores it; the result is ordered and has each such symbol as many
    times as it was gathered.
   */
  lemma SearchResultsMeaning(docSets: seq<DocSet>, query: string, searchMethod: SearchMethod, x: Symbol)
    ensures Sorted(SearchResults(docSets, query, searchMethod))
    ensures multiset(SearchResults(docSets, query, searchMethod)) == multiset(Gather(docSets, query, searchMethod))
    ensures x in SearchResults(docSets, query, searchMethod) <==>
              Matches(x, query, searchMethod) && exists i :: 0 <= i < |docSets| && x in docSets[i].symbols
  {
    var gathered := Gather(docSets, query, searchMethod);
    assert x in SearchResults(docSets, query, searchMethod) <==> x in multiset(gathered);
    GatherMembers(docSets, query, searchMethod, x);
  }

  /** Searching fewer docsets never finds a symbol that searching more docsets misses. */
  lemma SearchResultsMonotone(small: seq<DocSet>, large: seq<DocSet>, query: string, searchMethod: SearchMethod)
    requires forall d :: d in small ==> d in large
    ensures forall x :: x in SearchResults(small, query, searchMethod) ==> x in SearchResults(large, query, searchMethod)
  {
    forall x | x in SearchResults(small, query, searchMethod)
      ensures x in SearchResults(large, query, searchMethod)
    {
      SearchResultsMeaning(small, query, searchMethod, x);
      SearchResultsMeaning(large, query, searchMethod, x);
      var i :| 0 <= i < |small| && x in small[i].symbols;
      assert small[i] in large;
    }
  }

  // ---------------------------------------------------------------------------
  // The store object
  // ---------------------------------------------------------------------------

  class Store {
    /** Docsets that are loaded and searchable. */
    var docSets: seq<DocSet>
    /** Docsets whose indexing is in progress. */
    var indexingDocsets: seq<DocSet>

    /** allDocsets: the loaded docsets followed by the indexing ones. */
    function AllDocsets(): (all: seq<DocSet>)
      reads this
      ensures |all| == |docSets| + |indexingDocsets|
      ensures all[..|docSets|] == docSets && all[|docSets|..] == indexingDocsets
    {
      docSets + indexingDocsets
    }

    /** allDocsets holds exactly the docsets of the two partitions. */
    lemma AllDocsetsUnion()
      ensures forall d :: d in AllDocsets() <==> d in docSets || d in indexingDocsets
    {
    }

    /**
      No docset key occurs twice among all docsets (so the two partitions are
      disjoint and hold no docset twice), and each docset owns its symbols.
     */
    ghost predicate Valid()
      reads this, docSets, indexingDocsets
    {
      && (forall i, j :: 0 <= i < j < |AllDocsets()| ==> AllDocsets()[i].id != AllDocsets()[j].id)
      && (forall d :: d in docSets ==> d.Valid())
      && (forall d :: d in indexingDocsets ==> d.Valid())
    }

    /** The loaded docsets and the indexing docsets have no docset, and no docset key, in common. */
    lemma PartitionDisjoint()
      requires Valid()
      ensures forall i, j :: 0 <= i < |docSets| && 0 <= j < |indexingDocsets| ==>
                docSets[i].id != indexingDocsets[j].id
      ensures forall d :: d in docSets ==> d !in indexingDocsets
    {
      var all := AllDocsets();
      forall i, j | 0 <= i < |docSets| && 0 <= j < |indexingDocsets|
        ensures docSets[i].id != indexingDocsets[j].id
      {
        assert all[i] == docSets[i] && all[|docSets| + j] == indexingDocsets[j];
      }
    }

    constructor ()
      ensures Valid()
      ensures docSets == [] && indexingDocsets == []
    {
      docSets := [];
      indexingDocsets := [];
    }

    /** A newly discovered docset starts indexing. */
    method BeginIndexing(d: DocSet)
      requires Valid() && d.Valid()
      requires forall e :: e in docSets + indexingDocsets ==> e.id != d.id
      modifies this
      ensures Valid()
      ensures docSets == old(docSets) && indexingDocsets == old(indexingDocsets) + [d]
    {
      indexingDocsets := indexingDocsets + [d];
      assert AllDocsets() == old(AllDocsets()) + [d];
    }

    /** An indexing docset has finished and becomes searchable. */
    method FinishIndexing(i: nat)
      requires Valid() && i < |indexingDocsets|
      modifies this
      ensures Valid()
      ensures docSets == old(docSets) + [old(indexingDocsets)[i]]
      ensures indexingDocsets == old(indexingDocsets)[..i] + old(indexingDocsets)[i + 1..]
    {
      ghost var before := AllDocsets();
      var d := indexingDocsets[i];
      docSets := docSets + [d];
      indexingDocsets := indexingDocsets[..i] + indexingDocsets[i + 1..];
      ghost var after := AllDocsets();
      // each position of the new list comes from a distinct position of the old one
      ghost var n := |old(docSets)|;
      ghost var from := (k: int) =>
        if k < n then k else if k == n then n + i else if k <= n + i then k - 1 else k;
      assert forall k :: 0 <= k < |after| ==> 0 <= from(k) < |before| && after[k] == before[from(k)];
      forall a, b | 0 <= a < b < |after|
        ensures after[a].id != after[b].id
      {
        assert from(a) != from(b);
        if from(a) < from(b) {
          assert before[from(a)].id != before[from(b)].id;
        } else {
          assert before[from(b)].id != before[from(a)].id;
        }
      }
      forall e | e in indexingDocsets ensures e.Valid() {
        assert e in old(indexingDocsets);
      }
    }

    /** searchString:method:completionHandler: -- search over the loaded docsets. */
    method SearchString(query: string, searchMethod: SearchMethod) returns (results: seq<Symbol>)
      ensures results == SearchResults(docSets, query, searchMethod)
    {
      results := SearchStringInDocSets(query, docSets, searchMethod);
    }

    /** searchString:inDocSets:method:completionHandler: -- search over the given docsets. */
    method SearchStringInDocSets(query: string, sets: seq<DocSet>, searchMethod: SearchMethod)
      returns (results: seq<Symbol>)
      ensures results == SearchResults(sets, query, searchMethod)
    {
      results := SortSymbols(Gather(sets, query, searchMethod));
    }

    /** A search over the loaded docsets reports only matching symbols owned by a loaded docset. */
    lemma SearchStringSound(query: string, searchMethod: SearchMethod, x: Symbol)
      requires Valid()
      requires x in SearchResults(docSets, query, searchMethod)
      ensures Matches(x, query, searchMethod)
      ensures exists i :: 0 <= i < |docSets| && x in docSets[i].symbols && x.docSet == docSets[i].id
    {
      SearchResultsMeaning(docSets, query, searchMethod, x);
      var i :| 0 <= i < |docSets| && x in docSets[i].symbols;
      var d := docSets[i];
      assert d in docSets;
      assert Owned(d.symbols, d.id);
    }

    /** No symbol of a docset that is still indexing shows up in a search over the loaded docsets. */
    lemma IndexingDocsetsExcluded(query: string, searchMethod: SearchMethod, x: Symbol, d: DocSet)
      requires Valid()
      requires d in indexingDocsets
      requires x in SearchResults(docSets, query, searchMethod)
      ensures x.docSet != d.id && x !in d.symbols
    {
      SearchStringSound(query, searchMethod, x);
      PartitionDisjoint();
      var i :| 0 <= i < |docSets| && x in docSets[i].symbols && x.docSet == docSets[i].id;
      var j :| 0 <= j < |indexingDocsets| && indexingDocsets[j] == d;
      assert x.docSet != d.id;
      assert Owned(d.symbols, d.id);
    }
  }
}
