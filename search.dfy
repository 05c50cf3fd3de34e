/**
 * The search filter: the memoised `filteredMemes` derivation, a trimmed,
 * lower-cased query matched as a substring of each lower-cased meme name.
 */
module Search {
  import opened Text

  /** One template record from the listing endpoint. */
  datatype Meme = Meme(id: string, name: string, url: string)

  /** The normalised query: trimmed, then lower-cased. */
  function Term(query: string): string {
    Lower(Trim(query))
  }

  /** The `filter` callback: the lower-cased name includes the term. */
  predicate Matches(m: Meme, term: string) {
    Includes(Lower(m.name), term)
  }

  /** `Array.prototype.filter` with `Matches`: keeps matching memes, in order. */
  function KeepMatching(memes: seq<Meme>, term: string): (r: seq<Meme>)
    ensures |r| <= |memes|
    ensures forall j :: 0 <= j < |r| ==> Matches(r[j], term)
  {
    if memes == [] then []
    else (if Matches(memes[0], term) then [memes[0]] else []) + KeepMatching(memes[1..], term)
  }

  /** `filteredMemes`: the whole list for a blank query, else the matching memes. */
  function Filter(memes: seq<Meme>, query: string): seq<Meme> {
    var term := Term(query);
    if term == [] then memes else KeepMatching(memes, term)
  }

  /** `a` is `b` with some elements left out and the rest in their original order. */
  ghost predicate IsSubsequence<T>(a: seq<T>, b: seq<T>)
    decreases |b|
  {
    || a == []
    || (b != [] && ((a[0] == b[0] && IsSubsequence(a[1..], b[1..])) || IsSubsequence(a, b[1..])))
  }

  lemma {:induction false} SubsequenceLength<T>(a: seq<T>, b: seq<T>)
    requires IsSubsequence(a, b)
    ensures |a| <= |b|
    decreases |b|
  {
    if a != [] {
      if a[0] == b[0] && IsSubsequence(a[1..], b[1..]) {
        SubsequenceLength(a[1..], b[1..]);
      } else {
        SubsequenceLength(a, b[1..]);
      }
    }
  }

  /** The empty term matches every meme, so keeping the matches keeps everything. */
  lemma {:induction false} KeepMatchingEmptyTerm(memes: seq<Meme>)
    ensures KeepMatching(memes, []) == memes
    decreases |memes|
  {
    if memes != [] {
      IncludesEmpty(Lower(memes[0].name));
      KeepMatchingEmptyTerm(memes[1..]);
    }
  }

  /**
   * The early return for a blank query changes nothing: `Filter` is
   * plain `filter` with the normalised term on every query.
   */
  lemma FilterIsKeepMatching(memes: seq<Meme>, query: string)
    ensures Filter(memes, query) == KeepMatching(memes, Term(query))
  {
  }

  /** An empty or all-white-space query gives back the list unchanged. */
  lemma FilterBlankQuery(memes: seq<Meme>, query: string)
    requires AllSpace(query)
    ensures Filter(memes, query) == memes
  {
  }

  lemma {:induction false} KeepMatchingSubsequence(memes: seq<Meme>, term: string)
    ensures IsSubsequence(KeepMatching(memes, term), memes)
    decreases |memes|
  {
    if memes != [] {
      var rest := KeepMatching(memes[1..], term);
      KeepMatchingSubsequence(memes[1..], term);
      if Matches(memes[0], term) {
        assert KeepMatching(memes, term) == [memes[0]] + rest;
        assert ([memes[0]] + rest)[1..] == rest;
      } else {
        assert KeepMatching(memes, term) == rest;
      }
    }
  }

  /** The result keeps the input's relative order and is no longer than it. */
  lemma FilterSubsequence(memes: seq<Meme>, query: string)
    ensures IsSubsequence(Filter(memes, query), memes)
    ensures |Filter(memes, query)| <= |memes|
  {
    FilterIsKeepMatching(memes, query);
    KeepMatchingSubsequence(memes, Term(query));
    SubsequenceLength(Filter(memes, query), memes);
  }

  lemma {:induction false} KeepMatchingCount(memes: seq<Meme>, term: string, m: Meme)
    ensures multiset(KeepMatching(memes, term))[m]
         == if Matches(m, term) then multiset(memes)[m] else 0
    decreases |memes|
  {
    if memes != [] {
      KeepMatchingCount(memes[1..], term, m);
      assert memes == [memes[0]] + memes[1..];
      assert multiset(memes) == multiset([memes[0]]) + multiset(memes[1..]);
    }
  }

  /**
   * Each meme occurs in the result exactly as often as in the input when its
   * lower-cased name contains the term, and not at all otherwise: nothing is
   * wrongly dropped, nothing wrongly kept.
   */
  lemma FilterCount(memes: seq<Meme>, query: string, m: Meme)
    ensures multiset(Filter(memes, query))[m]
         == if Matches(m, Term(query)) then multiset(memes)[m] else 0
  {
    FilterIsKeepMatching(memes, query);
    KeepMatchingCount(memes, Term(query), m);
  }

  lemma FilterMatches(memes: seq<Meme>, query: string, m: Meme)
    ensures m in Filter(memes, query) <==> m in memes && Matches(m, Term(query))
  {
    var r := Filter(memes, query);
    FilterCount(memes, query, m);
    assert (m in r) == (multiset(r)[m] > 0);
    assert (m in memes) == (multiset(memes)[m] > 0);
  }

  /** A meme is shown exactly when it is loaded and its lower-cased name contains the term. */
  lemma FilterMembership(memes: seq<Meme>, query: string, m: Meme)
    ensures m in Filter(memes, query)
        <==> m in memes && Contains(Lower(m.name), Term(query))
  {
    FilterMatches(memes, query, m);
    IncludesIffOccurs(Lower(m.name), Term(query));
  }

  /** Queries that agree once lower-cased select the same memes. */
  lemma FilterCaseInsensitive(memes: seq<Meme>, q1: string, q2: string)
    requires Lower(q1) == Lower(q2)
    ensures Filter(memes, q1) == Filter(memes, q2)
  {
    LowerTrim(q1);
    LowerTrim(q2);
  }

  /** White space around a query does not change what it selects. */
  lemma FilterPaddingInsensitive(memes: seq<Meme>, pre: string, query: string, post: string)
    requires AllSpace(pre) && AllSpace(post)
    ensures Filter(memes, pre + query + post) == Filter(memes, query)
  {
    TrimPadded(pre, query, post);
  }

  /** A trimmed query selects what the untrimmed one does. */
  lemma FilterTrimInsensitive(memes: seq<Meme>, query: string)
    ensures Filter(memes, Trim(query)) == Filter(memes, query)
  {
  }

  lemma {:induction false} KeepMatchingIdempotent(memes: seq<Meme>, term: string)
    ensures KeepMatching(KeepMatching(memes, term), term) == KeepMatching(memes, term)
    decreases |memes|
  {
    if memes != [] {
      var rest := KeepMatching(memes[1..], term);
      KeepMatchingIdempotent(memes[1..], term);
      if Matches(memes[0], term) {
        assert ([memes[0]] + rest)[1..] == rest;
      } else {
        assert KeepMatching(memes, term) == rest;
      }
    }
  }

  /** Filtering the filtered list again with the same query changes nothing. */
  lemma FilterIdempotent(memes: seq<Meme>, query: string)
    ensures Filter(Filter(memes, query), query) == Filter(memes, query)
  {
    FilterIsKeepMatching(memes, query);
    FilterIsKeepMatching(Filter(memes, query), query);
    KeepMatchingIdempotent(memes, Term(query));
  }
}
