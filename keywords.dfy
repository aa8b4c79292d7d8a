/** The keyword route of the server (`POST /api/generate-keywords`): the
    keywords TF-IDF finds in the content and the related words of the
    Datamuse service are merged, sorted by score, highest first, and the
    first ten are kept. Both lists are inputs here, and scores are integers
    (the rounding of the floating-point scores is not modelled). */
module Keywords {
  import opened Wrappers
  import opened Lists

  const MaxKeywords := 10
  const KeywordsFailed := "Failed to generate keywords"

  datatype Keyword = Keyword(keyword: string, score: int)

  /** Non-increasing scores, what `sort((a, b) => b.score - a.score)` yields. */
  predicate SortedByScore(s: seq<Keyword>)
  {
    forall i, j :: 0 <= i < j < |s| ==> s[i].score >= s[j].score
  }

  /** The predicate `k => k.score === n`. */
  function HasScore(n: int): Keyword -> bool
  {
    (k: Keyword) => k.score == n
  }

  /** `x` placed into a list sorted by score after every entry that scores
      at least as much, where a stable sort puts it. */
  function Insert(s: seq<Keyword>, x: Keyword): (r: seq<Keyword>)
    ensures |r| == |s| + 1
  {
    if s == [] || s[|s| - 1].score >= x.score then s + [x]
    else Insert(s[..|s| - 1], x) + [s[|s| - 1]]
  }

  /** `Array.prototype.sort` with the comparator `b.score - a.score`, which
      is stable: an insertion sort that inserts each entry in turn. */
  function SortByScore(s: seq<Keyword>): (r: seq<Keyword>)
    ensures |r| == |s|
  {
    if s == [] then [] else Insert(SortByScore(s[..|s| - 1]), s[|s| - 1])
  }

  /** The route's merge: `keywords[0]` is read first for the Datamuse
      query, which throws on an empty keyword list; the route then answers
      status 500. */
  function CombineKeywords(keywords: seq<Keyword>, related: seq<Keyword>): (r: Result<seq<Keyword>, string>)
    ensures r.Failure? <==> keywords == []
    ensures r.Failure? ==> r.error == KeywordsFailed
  {
    if keywords == [] then Failure(KeywordsFailed)
    else Success(Take(SortByScore(keywords + related), MaxKeywords))
  }

  // ---------------------------------------------------------------------
  // Insertion

  /** Insertion adds `x` and nothing else. */
  lemma {:induction false} InsertPermutes(s: seq<Keyword>, x: Keyword)
    ensures multiset(Insert(s, x)) == multiset(s) + multiset{x}
    decreases |s|
  {
    if s != [] && s[|s| - 1].score < x.score {
      var s' := s[..|s| - 1];
      assert s == s' + [s[|s| - 1]];
      InsertPermutes(s', x);
    }
  }

  /** Every entry of a list sorted by score scores at least as much as its
      last entry. */
  lemma SortedAboveLast(s: seq<Keyword>)
    requires SortedByScore(s) && s != []
    ensures forall i :: 0 <= i < |s| ==> s[i].score >= s[|s| - 1].score
  {
  }

  /** Insertion into a list sorted by score keeps it sorted. */
  lemma {:induction false} InsertSorted(s: seq<Keyword>, x: Keyword)
    requires SortedByScore(s)
    ensures SortedByScore(Insert(s, x))
    decreases |s|
  {
    if s != [] && s[|s| - 1].score < x.score {
      var s' := s[..|s| - 1];
      var last := s[|s| - 1];
      assert SortedByScore(s');
      InsertSorted(s', x);
      InsertPermutes(s', x);
      SortedAboveLast(s);
      var r := Insert(s', x);
      forall i | 0 <= i < |r| ensures r[i].score >= last.score {
        assert r[i] in multiset(r);
        if r[i] != x {
          assert r[i] in multiset(s');
          var k :| 0 <= k < |s'| && s'[k] == r[i];
          assert s[k] == r[i];
        }
      }
      assert Insert(s, x) == r + [last];
    } else if s != [] {
      SortedAboveLast(s);
    }
  }

  /** Insertion keeps the order of the entries of each score, `x` coming
      after those of its own score. */
  lemma {:induction false} InsertStable(s: seq<Keyword>, x: Keyword, n: int)
    ensures Filter(Insert(s, x), HasScore(n)) == Filter(s, HasScore(n)) + (if x.score == n then [x] else [])
    decreases |s|
  {
    if s == [] || s[|s| - 1].score >= x.score {
      FilterAppend(s, HasScore(n), x);
    } else {
      var s' := s[..|s| - 1];
      var last := s[|s| - 1];
      assert s == s' + [last];
      InsertStable(s', x, n);
      FilterAppend(Insert(s', x), HasScore(n), last);
      FilterAppend(s', HasScore(n), last);
    }
  }

  // ---------------------------------------------------------------------
  // Sorting

  /** The sorted list is sorted by non-increasing score and is a
      permutation of the input. */
  lemma SortSorted(s: seq<Keyword>)
    ensures SortedByScore(SortByScore(s))
    ensures multiset(SortByScore(s)) == multiset(s)
  {
    SortOrders(s);
    SortPermutes(s);
  }

  lemma {:induction false} SortOrders(s: seq<Keyword>)
    ensures SortedByScore(SortByScore(s))
  {
    if s != [] {
      SortOrders(s[..|s| - 1]);
      InsertSorted(SortByScore(s[..|s| - 1]), s[|s| - 1]);
    }
  }

  lemma {:induction false} SortPermutes(s: seq<Keyword>)
    ensures multiset(SortByScore(s)) == multiset(s)
  {
    if s != [] {
      var s' := s[..|s| - 1];
      SortPermutes(s');
      InsertPermutes(SortByScore(s'), s[|s| - 1]);
      assert s == s' + [s[|s| - 1]];
    }
  }

  /** The sort is stable: the entries of each score keep their input order. */
  lemma {:induction false} SortStable(s: seq<Keyword>, n: int)
    ensures Filter(SortByScore(s), HasScore(n)) == Filter(s, HasScore(n))
  {
    if s != [] {
      var s' := s[..|s| - 1];
      var last := s[|s| - 1];
      assert s == s' + [last];
      SortStable(s', n);
      InsertStable(SortByScore(s'), last, n);
      FilterAppend(s', HasScore(n), last);
    }
  }

  // ---------------------------------------------------------------------
  // What the route answers

  /** At most ten keywords, sorted by non-increasing score, each one of
      the TF-IDF keywords or related words; ten whenever there are that
      many; and every entry left out scores at most as much as every entry
      kept. */
  lemma CombinedProperties(keywords: seq<Keyword>, related: seq<Keyword>)
    requires keywords != []
    ensures CombineKeywords(keywords, related).Success?
    ensures var r := CombineKeywords(keywords, related).value;
      && |r| <= MaxKeywords
      && (|keywords + related| >= MaxKeywords ==> |r| == MaxKeywords)
      && SortedByScore(r)
      && (forall i :: 0 <= i < |r| ==> r[i] in keywords || r[i] in related)
    ensures var r := CombineKeywords(keywords, related).value;
      var all := SortByScore(keywords + related);
      && multiset(all) == multiset(keywords + related)
      && r == all[..|r|]
      && (forall i, j :: 0 <= i < |r| <= j < |all| ==> r[i].score >= all[j].score)
  {
    var all := SortByScore(keywords + related);
    SortSorted(keywords + related);
    TopScores(all, MaxKeywords);
    TopMembers(keywords, related, all, MaxKeywords);
  }

  /** The first `n` entries of a sorted list: sorted, a prefix, and scoring
      at least as much as every entry after them. */
  lemma TopScores(all: seq<Keyword>, n: nat)
    requires SortedByScore(all)
    ensures var r := Take(all, n);
      && (|all| >= n ==> |r| == n)
      && SortedByScore(r)
      && r == all[..|r|]
      && (forall i, j :: 0 <= i < |r| <= j < |all| ==> r[i].score >= all[j].score)
  {
  }

  /** Each of the first `n` entries of a permutation of `keywords + related`
      is one of the keywords or one of the related words. */
  lemma TopMembers(keywords: seq<Keyword>, related: seq<Keyword>, all: seq<Keyword>, n: nat)
    requires multiset(all) == multiset(keywords + related)
    ensures forall i :: 0 <= i < |Take(all, n)| ==> Take(all, n)[i] in keywords || Take(all, n)[i] in related
  {
    var r := Take(all, n);
    forall i | 0 <= i < |r| ensures r[i] in keywords || r[i] in related {
      assert r[i] == all[i];
      assert all[i] in multiset(keywords + related);
    }
  }
}
