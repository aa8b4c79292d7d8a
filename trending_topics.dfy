/** The trending-topics route of the server (`GET /api/trending-topics`):
    the titles of three news feeds are split into words, the words that are
    long and not common are collected in a `Set`, and the first nine of
    them are returned. */
module TrendingTopics {
  import opened Wrappers
  import opened Lists
  import opened JsString

  /** The lower-case words never taken as topics. */
  const CommonWords: seq<string> := ["the", "and", "for", "with", "you", "that", "this", "are", "from", "have"]

  /** How many topics the route returns at most. */
  const MaxTopics := 9

  const FetchFailed := "Failed to fetch trending topics"

  /** A word becomes a topic when it is longer than three characters and
      its lower-case form is not a common word. */
  predicate Qualifies(word: string)
  {
    |word| > 3 && ToLower(word) !in CommonWords
  }

  /** The words of a list of titles, title by title, each split on spaces. */
  function TitleWords(titles: seq<string>): seq<string>
  {
    if titles == [] then []
    else TitleWords(titles[..|titles| - 1]) + Split(titles[|titles| - 1], ' ')
  }

  /** The words of all the titles of all the feeds, in feed order. A feed
      is `None` when it could not be fetched or parsed; it has no words. */
  function FeedWords(feeds: seq<Option<seq<string>>>): seq<string>
  {
    if feeds == [] then []
    else
      var last := feeds[|feeds| - 1];
      FeedWords(feeds[..|feeds| - 1]) + (if last.Some? then TitleWords(last.value) else [])
  }

  predicate AllFetched(feeds: seq<Option<seq<string>>>)
  {
    forall f :: 0 <= f < |feeds| ==> feeds[f].Some?
  }

  /** The topics the route answers with when every feed was fetched. */
  function Topics(feeds: seq<Option<seq<string>>>): seq<string>
  {
    Take(FirstOccurrences(Filter(FeedWords(feeds), Qualifies)), MaxTopics)
  }

  /** `w` is a space-separated word of title `t` of feed `f`. */
  predicate WordOfTitle(feeds: seq<Option<seq<string>>>, f: int, t: int, w: string)
  {
    0 <= f < |feeds| && feeds[f].Some? && InTitle(feeds[f].value, t, w)
  }

  /** `w` is a space-separated word of title `t`. */
  predicate InTitle(titles: seq<string>, t: int, w: string)
  {
    0 <= t < |titles| && w in Split(titles[t], ' ')
  }

  /** The route's handler after the feeds were fetched and parsed: one
      `Set` collects the qualifying words of every title of every feed, in
      turn; a feed that failed ends the request with status 500. */
  method ExtractTopics(feeds: seq<Option<seq<string>>>) returns (r: Result<seq<string>, string>)
    ensures r.Failure? <==> !AllFetched(feeds)
    ensures r.Failure? ==> r.error == FetchFailed
    ensures r.Success? ==> r.value == Topics(feeds)
  {
    var topics: seq<string> := [];
    ghost var done: seq<string> := [];
    var f := 0;
    FeedsSoFar(feeds, 0);
    while f < |feeds|
      invariant 0 <= f <= |feeds|
      invariant AllFetched(feeds[..f])
      invariant done == FeedWords(feeds[..f])
      invariant topics == FirstOccurrences(Filter(done, Qualifies))
    {
      if feeds[f].None? {
        assert !AllFetched(feeds);
        return Failure(FetchFailed);
      }
      FeedsSoFar(feeds, f + 1);
      topics := AddTitles(topics, done, feeds[f].value);
      done := done + TitleWords(feeds[f].value);
      f := f + 1;
    }
    FeedsSoFar(feeds, |feeds|);
    r := Success(Take(topics, MaxTopics));
  }

  /** The words seen after the first `f` feeds, one feed at a time. */
  lemma FeedsSoFar(feeds: seq<Option<seq<string>>>, f: int)
    requires 0 <= f <= |feeds|
    ensures f == 0 ==> FeedWords(feeds[..f]) == []
    ensures f > 0 && feeds[f - 1].Some? ==>
      FeedWords(feeds[..f]) == FeedWords(feeds[..f - 1]) + TitleWords(feeds[f - 1].value)
    ensures f > 0 && feeds[f - 1].Some? && AllFetched(feeds[..f - 1]) ==> AllFetched(feeds[..f])
    ensures f == 0 ==> AllFetched(feeds[..f])
    ensures f == |feeds| ==> feeds[..f] == feeds
  {
    if f > 0 {
      assert feeds[..f][..f - 1] == feeds[..f - 1];
      assert forall g :: 0 <= g < f - 1 ==> feeds[..f][g] == feeds[..f - 1][g];
    } else {
      assert feeds[..f] == [];
    }
  }

  /** The callback over the items of one feed: the words of each title are
      added to the set, title by title. */
  method AddTitles(topics: seq<string>, ghost seen: seq<string>, titles: seq<string>)
    returns (topics': seq<string>)
    requires topics == FirstOccurrences(Filter(seen, Qualifies))
    ensures topics' == FirstOccurrences(Filter(seen + TitleWords(titles), Qualifies))
  {
    topics' := topics;
    ghost var done := seen;
    var t := 0;
    TitlesSoFar(seen, titles, 0);
    while t < |titles|
      invariant 0 <= t <= |titles|
      invariant done == seen + TitleWords(titles[..t])
      invariant topics' == FirstOccurrences(Filter(done, Qualifies))
    {
      var words := Split(titles[t], ' ');
      TitlesSoFar(seen, titles, t + 1);
      topics' := AddWords(topics', done, words);
      done := done + words;
      t := t + 1;
    }
    TitlesSoFar(seen, titles, |titles|);
  }

  /** The words seen after the first `t` titles, one title at a time. */
  lemma TitlesSoFar(seen: seq<string>, titles: seq<string>, t: int)
    requires 0 <= t <= |titles|
    ensures t == 0 ==> seen + TitleWords(titles[..t]) == seen
    ensures t > 0 ==> seen + TitleWords(titles[..t]) == seen + TitleWords(titles[..t - 1]) + Split(titles[t - 1], ' ')
    ensures t == |titles| ==> titles[..t] == titles
  {
    if t > 0 {
      assert titles[..t][..t - 1] == titles[..t - 1];
    } else {
      assert titles[..t] == [];
    }
  }

  /** The callback over the words of one title: each qualifying word is
      added to the set, where it is kept once. */
  method AddWords(topics: seq<string>, ghost seen: seq<string>, words: seq<string>)
    returns (topics': seq<string>)
    requires topics == FirstOccurrences(Filter(seen, Qualifies))
    ensures topics' == FirstOccurrences(Filter(seen + words, Qualifies))
  {
    topics' := topics;
    ghost var done := seen;
    var w := 0;
    assert seen + words[..w] == seen;
    while w < |words|
      invariant 0 <= w <= |words|
      invariant done == seen + words[..w]
      invariant topics' == FirstOccurrences(Filter(done, Qualifies))
    {
      var word := words[w];
      topics' := AddWord(topics', done, word);
      PrefixStep(seen, words, w);
      done := done + [word];
      w := w + 1;
    }
    assert words[..w] == words;
  }

  /** One more element of `words` after `seen`. */
  lemma PrefixStep<T>(seen: seq<T>, words: seq<T>, w: int)
    requires 0 <= w < |words|
    ensures seen + words[..w + 1] == (seen + words[..w]) + [words[w]]
  {
    assert words[..w + 1] == words[..w] + [words[w]];
  }

  /** The callback on one word: `topics.add(word)` when the word qualifies;
      a word already in the set is not added again. */
  method AddWord(topics: seq<string>, ghost seen: seq<string>, word: string)
    returns (topics': seq<string>)
    requires topics == FirstOccurrences(Filter(seen, Qualifies))
    ensures topics' == FirstOccurrences(Filter(seen + [word], Qualifies))
  {
    AddWordStep(topics, seen, word);
    if Qualifies(word) && word !in topics {
      topics' := topics + [word];
    } else {
      topics' := topics;
    }
  }

  /** Adding one word to the set keeps the set equal to the distinct
      qualifying words seen so far, in order of first occurrence. */
  lemma AddWordStep(topics: seq<string>, seen: seq<string>, word: string)
    requires topics == FirstOccurrences(Filter(seen, Qualifies))
    ensures Qualifies(word) && word !in topics ==> topics + [word] == FirstOccurrences(Filter(seen + [word], Qualifies))
    ensures !(Qualifies(word) && word !in topics) ==> topics == FirstOccurrences(Filter(seen + [word], Qualifies))
  {
    var kept := Filter(seen, Qualifies);
    FilterAppend(seen, Qualifies, word);
    FirstOccurrencesMembership(kept, word);
    if Qualifies(word) {
      FirstOccurrencesAppend(kept, word);
    } else {
      assert Filter(seen + [word], Qualifies) == kept;
    }
  }

  /** A word is among the words of the titles exactly when some title
      holds it between spaces. */
  lemma {:induction false} TitleWordsMembership(titles: seq<string>, w: string)
    ensures w in TitleWords(titles) <==> exists t :: InTitle(titles, t, w)
  {
    if titles != [] {
      var n := |titles| - 1;
      var p := titles[..n];
      TitleWordsMembership(p, w);
      assert TitleWords(titles) == TitleWords(p) + Split(titles[n], ' ');
      if w in TitleWords(p) {
        var t :| InTitle(p, t, w);
        assert titles[t] == p[t];
        assert InTitle(titles, t, w);
      } else if w in Split(titles[n], ' ') {
        assert InTitle(titles, n, w);
      }
      if exists t :: InTitle(titles, t, w) {
        var t :| InTitle(titles, t, w);
        if t < n {
          assert titles[t] == p[t];
          assert InTitle(p, t, w);
        }
      }
    }
  }

  /** A word is among the words of the feeds exactly when some title of
      some fetched feed holds it. */
  lemma {:induction false} FeedWordsMembership(feeds: seq<Option<seq<string>>>, w: string)
    ensures w in FeedWords(feeds) <==> exists f, t :: WordOfTitle(feeds, f, t, w)
  {
    if feeds != [] {
      var p := feeds[..|feeds| - 1];
      var last := feeds[|feeds| - 1];
      FeedWordsMembership(p, w);
      if last.Some? {
        TitleWordsMembership(last.value, w);
      }
      if w in FeedWords(p) {
        var f, t :| WordOfTitle(p, f, t, w);
        assert feeds[f] == p[f];
        assert WordOfTitle(feeds, f, t, w);
      }
      if last.Some? && w in TitleWords(last.value) {
        var t :| InTitle(last.value, t, w);
        assert WordOfTitle(feeds, |feeds| - 1, t, w);
      }
      if exists f, t :: WordOfTitle(feeds, f, t, w) {
        var f, t :| WordOfTitle(feeds, f, t, w);
        if f < |p| {
          assert feeds[f] == p[f];
          assert WordOfTitle(p, f, t, w);
        } else {
          assert InTitle(last.value, t, w);
        }
      }
    }
  }

  /** What the route promises about its answer: at most nine topics, none
      twice, each longer than three characters, not a common word in any
      letter case, free of spaces, and a word of some title of some feed;
      and a qualifying word of the titles is missing only when nine topics
      were already found. */
  lemma TopicsProperties(feeds: seq<Option<seq<string>>>)
    ensures |Topics(feeds)| <= MaxTopics
    ensures Distinct(Topics(feeds))
    ensures forall i :: 0 <= i < |Topics(feeds)| ==>
      && |Topics(feeds)[i]| > 3
      && ToLower(Topics(feeds)[i]) !in CommonWords
      && ' ' !in Topics(feeds)[i]
      && exists f, t :: WordOfTitle(feeds, f, t, Topics(feeds)[i])
    ensures forall w :: w in FeedWords(feeds) && Qualifies(w) && w !in Topics(feeds) ==>
      |Topics(feeds)| == MaxTopics
  {
    var words := FeedWords(feeds);
    var kept := Filter(words, Qualifies);
    var all := FirstOccurrences(kept);
    FirstOccurrencesDistinct(kept);
    TakeDistinct(all, MaxTopics);
    forall i | 0 <= i < |Topics(feeds)|
      ensures && |Topics(feeds)[i]| > 3
        && ToLower(Topics(feeds)[i]) !in CommonWords
        && ' ' !in Topics(feeds)[i]
        && exists f, t :: WordOfTitle(feeds, f, t, Topics(feeds)[i])
    {
      var w := Topics(feeds)[i];
      assert w == all[i];
      FirstOccurrencesMembership(kept, w);
      FilterMembership(words, Qualifies, w);
      FeedWordsMembership(feeds, w);
      var f, t :| WordOfTitle(feeds, f, t, w);
      assert InTitle(feeds[f].value, t, w);
      var parts := Split(feeds[f].value[t], ' ');
      var k :| 0 <= k < |parts| && parts[k] == w;
      assert ' ' !in parts[k];
      assert Qualifies(w);
    }
    forall w | w in words && Qualifies(w) && w !in Topics(feeds)
      ensures |Topics(feeds)| == MaxTopics
    {
      FilterMembership(words, Qualifies, w);
      FirstOccurrencesMembership(kept, w);
    }
  }
}
