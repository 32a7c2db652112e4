/**
 * A vector-store collection (Chroma) as the core uses it: documents with a
 * metadata map, `addDocuments`, `delete({filter})` and
 * `similaritySearch(query, k, filter)`. Embeddings are not modelled, so a
 * search returns SOME arrangement of at most `k` matching documents.
 */
module VectorStore {
  import opened Seqs

  /** A metadata value: the core stores strings and the boolean `isSummary`. */
  datatype MetaValue = MStr(s: string) | MBool(b: bool)

  datatype Doc = Doc(content: string, metadata: map<string, MetaValue>)

  /** A metadata filter: equality on one field, or `$and` of filters (`And([])` matches everything). */
  datatype Filter = Eq(field: string, value: MetaValue) | And(clauses: seq<Filter>)

  predicate Matches(d: Doc, f: Filter)
    decreases f
  {
    match f
    case Eq(k, v) => k in d.metadata && d.metadata[k] == v
    case And(cs) => forall i :: 0 <= i < |cs| ==> Matches(d, cs[i])
  }

  /** The unfiltered search. */
  const Everything: Filter := And([])

  /** The documents that match, in store order. */
  function Matching(docs: seq<Doc>, f: Filter): (r: seq<Doc>)
  {
    if docs == [] then []
    else (if Matches(docs[0], f) then [docs[0]] else []) + Matching(docs[1..], f)
  }

  /** What `delete({filter})` leaves: the documents that do not match, in store order. */
  function Without(docs: seq<Doc>, f: Filter): (r: seq<Doc>)
  {
    if docs == [] then []
    else (if Matches(docs[0], f) then [] else [docs[0]]) + Without(docs[1..], f)
  }

  function Min(a: int, b: int): int { if a <= b then a else b }

  /**
   * A possible answer of `similaritySearch(_, k, f)`: `min(k, n)` of the `n`
   * matching documents, each at most as often as it is stored, in any order.
   */
  predicate IsSearchResult(docs: seq<Doc>, f: Filter, k: nat, r: seq<Doc>) {
    |r| == Min(k, |Matching(docs, f)|) && multiset(r) <= multiset(Matching(docs, f))
  }

  // ---------------------------------------------------------------------
  // Lemmas about the store operations
  // ---------------------------------------------------------------------

  /** A document is among the matches exactly when it is stored and matches. */
  lemma {:induction false} InMatching(docs: seq<Doc>, f: Filter, d: Doc)
    ensures d in Matching(docs, f) <==> d in docs && Matches(d, f)
  {
    if docs != [] {
      InMatching(docs[1..], f, d);
      assert docs == [docs[0]] + docs[1..];
    }
  }

  /** A document survives a delete exactly when it is stored and does not match. */
  lemma {:induction false} InWithout(docs: seq<Doc>, f: Filter, d: Doc)
    ensures d in Without(docs, f) <==> d in docs && !Matches(d, f)
  {
    if docs != [] {
      InWithout(docs[1..], f, d);
      assert docs == [docs[0]] + docs[1..];
    }
  }

  lemma {:induction false} MatchingAppend(a: seq<Doc>, b: seq<Doc>, f: Filter)
    ensures Matching(a + b, f) == Matching(a, f) + Matching(b, f)
  {
    if a == [] {
      assert a + b == b;
    } else {
      var head := if Matches(a[0], f) then [a[0]] else [];
      MatchingAppend(a[1..], b, f);
      ConsAppend(a, b);
      AppendAssoc(head, Matching(a[1..], f), Matching(b, f));
    }
  }

  lemma {:induction false} WithoutAppend(a: seq<Doc>, b: seq<Doc>, f: Filter)
    ensures Without(a + b, f) == Without(a, f) + Without(b, f)
  {
    if a == [] {
      assert a + b == b;
    } else {
      var head := if Matches(a[0], f) then [] else [a[0]];
      WithoutAppend(a[1..], b, f);
      ConsAppend(a, b);
      AppendAssoc(head, Without(a[1..], f), Without(b, f));
    }
  }

  /** A delete keeps every document it does not match and removes every one it does, so the store splits into the two. */
  lemma {:induction false} DeletePartitions(docs: seq<Doc>, f: Filter)
    ensures multiset(Matching(docs, f)) + multiset(Without(docs, f)) == multiset(docs)
  {
    if docs != [] {
      DeletePartitions(docs[1..], f);
      assert docs == [docs[0]] + docs[1..];
    }
  }

  /** Every document whose match implies a match of `f` is gone after deleting by `f`. */
  lemma {:induction false} WithoutRemoves(docs: seq<Doc>, f: Filter, g: Filter)
    requires forall d :: Matches(d, g) ==> Matches(d, f)
    ensures Matching(Without(docs, f), g) == []
  {
    if docs != [] {
      WithoutRemoves(docs[1..], f, g);
      WithoutAppend([docs[0]], docs[1..], f);
      assert docs == [docs[0]] + docs[1..];
      MatchingAppend(Without([docs[0]], f), Without(docs[1..], f), g);
    }
  }

  /** Deleting by `f` leaves the documents matching `g` alone when no document can match both. */
  lemma {:induction false} WithoutKeeps(docs: seq<Doc>, f: Filter, g: Filter)
    requires forall d :: !(Matches(d, g) && Matches(d, f))
    ensures Matching(Without(docs, f), g) == Matching(docs, g)
  {
    if docs != [] {
      WithoutKeeps(docs[1..], f, g);
      WithoutAppend([docs[0]], docs[1..], f);
      assert docs == [docs[0]] + docs[1..];
      MatchingAppend(Without([docs[0]], f), Without(docs[1..], f), g);
      MatchingAppend([docs[0]], docs[1..], g);
    }
  }

  /** Deleting twice by the same filter is the same as deleting once. */
  lemma {:induction false} WithoutIdempotent(docs: seq<Doc>, f: Filter)
    ensures Without(Without(docs, f), f) == Without(docs, f)
  {
    if docs != [] {
      WithoutIdempotent(docs[1..], f);
      WithoutAppend(if Matches(docs[0], f) then [] else [docs[0]], Without(docs[1..], f), f);
    }
  }

  /** A delete never adds matches of another filter. */
  lemma {:induction false} WithoutShrinks(docs: seq<Doc>, f: Filter, g: Filter)
    ensures |Matching(Without(docs, f), g)| <= |Matching(docs, g)|
  {
    if docs != [] {
      WithoutShrinks(docs[1..], f, g);
      WithoutAppend([docs[0]], docs[1..], f);
      assert docs == [docs[0]] + docs[1..];
      MatchingAppend(Without([docs[0]], f), Without(docs[1..], f), g);
      MatchingAppend([docs[0]], docs[1..], g);
    }
  }

  lemma MultisetPrefix<T>(s: seq<T>, n: nat)
    requires n <= |s|
    ensures multiset(s[..n]) <= multiset(s)
  {
    assert s == s[..n] + s[n..];
  }

  /** Some answer always exists: for instance the first `min(k, n)` matches. */
  lemma SearchResultExists(docs: seq<Doc>, f: Filter, k: nat)
    ensures IsSearchResult(docs, f, k, Matching(docs, f)[..Min(k, |Matching(docs, f)|)])
  {
    MultisetPrefix(Matching(docs, f), Min(k, |Matching(docs, f)|));
  }

  /** Every document a search returns is stored and matches the filter. */
  lemma SearchResultMatches(docs: seq<Doc>, f: Filter, k: nat, r: seq<Doc>)
    requires IsSearchResult(docs, f, k, r)
    ensures forall d :: d in r ==> d in docs && Matches(d, f)
  {
    forall d | d in r ensures d in docs && Matches(d, f) {
      assert d in multiset(r);
      InMatching(docs, f, d);
    }
  }

  /** A search with `k >= 1` comes back empty exactly when nothing matches. */
  lemma SearchEmptyIff(docs: seq<Doc>, f: Filter, k: nat, r: seq<Doc>)
    requires k >= 1 && IsSearchResult(docs, f, k, r)
    ensures r == [] <==> Matching(docs, f) == []
  {
  }

  /** When exactly one document matches, every search with `k >= 1` returns just it. */
  lemma SearchSingle(docs: seq<Doc>, f: Filter, k: nat, r: seq<Doc>, d: Doc)
    requires k >= 1 && IsSearchResult(docs, f, k, r) && Matching(docs, f) == [d]
    ensures r == [d]
  {
    assert |r| == 1;
    assert r[0] in multiset(r);
  }

  // ---------------------------------------------------------------------
  // A collection
  // ---------------------------------------------------------------------

  /** One Chroma collection. */
  class Collection {
    var docs: seq<Doc>

    constructor ()
      ensures docs == []
    {
      docs := [];
    }

    /** `addDocuments(ds)` appends. */
    method AddDocuments(ds: seq<Doc>)
      modifies this
      ensures docs == old(docs) + ds
    {
      docs := docs + ds;
    }

    /** `delete({ filter })` removes every matching document; matching none is not an error. */
    method Delete(f: Filter)
      modifies this
      ensures docs == Without(old(docs), f)
    {
      docs := Without(docs, f);
    }

    /** `similaritySearch(query, k, f)`: the ranking by `query` is left open. */
    method SimilaritySearch(query: string, k: nat, f: Filter) returns (r: seq<Doc>)
      ensures IsSearchResult(docs, f, k, r)
    {
      SearchResultExists(docs, f, k);
      r :| IsSearchResult(docs, f, k, r);
    }
  }
}
