/** The recommendation route of the server (`POST /api/get-recommendations`):
    the GitHub trending repositories that mention one of the key terms, the
    Wikipedia search results for the key terms with their highlight tags
    removed, and the two lists joined, trends first. The key terms, the
    repository records and the search results are inputs here. */
module Recommendations {
  import opened Lists
  import opened JsString
  import opened GithubTrends

  const MaxTrends := 10
  const MaxRelated := 10

  /** The record a kept repository becomes. */
  datatype Trend = Trend(topic: string, description: string, url: string, stars: int, language: string)

  function AsTrend(repo: Repo): (t: Trend)
  {
    Trend(repo.name, repo.description, repo.url, repo.stars, repo.language)
  }

  /** A repository mentions a term when its lower-case name or description
      includes the lower-case term. */
  predicate Mentions(repo: Repo, term: string)
  {
    Includes(ToLower(repo.name), ToLower(term)) || Includes(ToLower(repo.description), ToLower(term))
  }

  /** `keyTerms.some(term => ...)`, term by term. */
  predicate MentionsSome(repo: Repo, terms: seq<string>)
  {
    terms != [] && (MentionsSome(repo, terms[..|terms| - 1]) || Mentions(repo, terms[|terms| - 1]))
  }

  function RelevantTo(terms: seq<string>): Repo -> bool
  {
    (repo: Repo) => MentionsSome(repo, terms)
  }

  /** `filter`, then `map`, then `slice(0, 10)`. */
  function Trends(repos: seq<Repo>, terms: seq<string>): (trends: seq<Trend>)
  {
    Take(Map(Filter(repos, RelevantTo(terms)), AsTrend), MaxTrends)
  }

  /** The repositories the trends come from. */
  function KeptRepos(repos: seq<Repo>, terms: seq<string>): (kept: seq<Repo>)
  {
    Take(Filter(repos, RelevantTo(terms)), MaxTrends)
  }

  /** `some` holds exactly when one of the terms is mentioned. */
  lemma {:induction false} MentionsSomeIff(repo: Repo, terms: seq<string>)
    ensures MentionsSome(repo, terms) <==> exists k :: 0 <= k < |terms| && Mentions(repo, terms[k])
  {
    if terms != [] {
      var p := terms[..|terms| - 1];
      MentionsSomeIff(repo, p);
      if exists k :: 0 <= k < |p| && Mentions(repo, p[k]) {
        var k :| 0 <= k < |p| && Mentions(repo, p[k]);
        assert terms[k] == p[k];
      }
      if exists k :: 0 <= k < |terms| && Mentions(repo, terms[k]) {
        var k :| 0 <= k < |terms| && Mentions(repo, terms[k]);
        if k < |p| {
          assert terms[k] == p[k];
        }
      }
    }
  }

  /** At most ten trends, one per kept repository; the kept repositories
      appear in page order and each mentions some key term; and a relevant
      repository is left out only when ten trends were already kept. */
  lemma TrendsProperties(repos: seq<Repo>, terms: seq<string>)
    ensures |Trends(repos, terms)| <= MaxTrends
    ensures Trends(repos, terms) == Map(KeptRepos(repos, terms), AsTrend)
    ensures IsSubsequence(KeptRepos(repos, terms), repos)
    ensures forall i :: 0 <= i < |KeptRepos(repos, terms)| ==>
      exists k :: 0 <= k < |terms| && Mentions(KeptRepos(repos, terms)[i], terms[k])
    ensures forall repo :: repo in repos && MentionsSome(repo, terms) && repo !in KeptRepos(repos, terms) ==>
      |KeptRepos(repos, terms)| == MaxTrends
  {
    var relevant := Filter(repos, RelevantTo(terms));
    var kept := KeptRepos(repos, terms);
    TakeMap(relevant, AsTrend, MaxTrends);
    FilterIsSubsequence(repos, RelevantTo(terms));
    SubsequenceTake(relevant, repos, MaxTrends);
    forall i | 0 <= i < |kept|
      ensures exists k :: 0 <= k < |terms| && Mentions(kept[i], terms[k])
    {
      assert RelevantTo(terms)(relevant[i]);
      MentionsSomeIff(kept[i], terms);
    }
    forall repo | repo in repos && MentionsSome(repo, terms) && repo !in kept
      ensures |kept| == MaxTrends
    {
      FilterMembership(repos, RelevantTo(terms), repo);
    }
  }

  // ---------------------------------------------------------------------
  // Snippet cleanup: `snippet.replace(/<\/?span[^>]*>/g, '')`

  /** The length of the span tag at the start of `s`, 0 when there is none:
      `<`, an optional `/`, `span`, then everything up to and including the
      first `>`. Without a closing `>` there is no tag. */
  function TagLength(s: string): (n: nat)
    ensures n <= |s|
    ensures n > 0 ==> s[0] == '<' && s[n - 1] == '>'
  {
    var k := if |s| >= 2 && s[1] == '/' then 2 else 1;
    if |s| >= k + 4 && s[0] == '<' && s[k..k + 4] == "span" && '>' in s[k + 4..] then
      k + 4 + FirstIndex(s[k + 4..], '>') + 1
    else 0
  }

  /** A span tag starts at position `i` of `s`. */
  predicate TagAt(s: string, i: int)
  {
    0 <= i < |s| && TagLength(s[i..]) > 0
  }

  /** The global replacement: scanning from the left, each tag found is
      dropped and the scan resumes after it; any other character is kept. */
  function StripSpans(s: string): (r: string)
    ensures |r| <= |s|
    decreases |s|
  {
    if s == [] then []
    else
      var n := TagLength(s);
      if n > 0 then StripSpans(s[n..]) else [s[0]] + StripSpans(s[1..])
  }

  /** What is left keeps its characters in their original order. */
  lemma {:induction false} StripSpansSubsequence(s: string)
    ensures IsSubsequence(StripSpans(s), s)
    decreases |s|
  {
    if s != [] {
      var n := TagLength(s);
      if n > 0 {
        StripSpansSubsequence(s[n..]);
        assert s == s[..n] + s[n..];
        SubsequenceConcat([], s[..n], StripSpans(s[n..]), s[n..]);
        assert [] + StripSpans(s[n..]) == StripSpans(s[n..]);
      } else {
        StripSpansSubsequence(s[1..]);
        SubsequenceRefl([s[0]]);
        SubsequenceConcat([s[0]], [s[0]], StripSpans(s[1..]), s[1..]);
        assert [s[0]] + s[1..] == s;
      }
    }
  }

  /** Text changes exactly when a span tag occurs in it: without one it is
      kept as it is, and with one something is removed. */
  lemma {:induction false} StripSpansUnchangedIff(s: string)
    ensures StripSpans(s) == s <==> forall i :: 0 <= i < |s| ==> !TagAt(s, i)
    decreases |s|
  {
    if (forall i :: 0 <= i < |s| ==> !TagAt(s, i)) {
      NoTagKept(s);
    } else {
      var i :| 0 <= i < |s| && TagAt(s, i);
      TagShortens(s, i);
    }
  }

  lemma {:induction false} NoTagKept(s: string)
    requires forall i :: 0 <= i < |s| ==> !TagAt(s, i)
    ensures StripSpans(s) == s
    decreases |s|
  {
    if s != [] {
      assert !TagAt(s, 0);
      assert s[0..] == s;
      forall i | 0 <= i < |s[1..]| ensures !TagAt(s[1..], i) {
        assert s[1..][i..] == s[i + 1..];
        assert !TagAt(s, i + 1);
      }
      NoTagKept(s[1..]);
      assert [s[0]] + s[1..] == s;
    }
  }

  lemma {:induction false} TagShortens(s: string, i: int)
    requires TagAt(s, i)
    ensures |StripSpans(s)| < |s|
    decreases |s|
  {
    assert s[0..] == s;
    if TagLength(s) == 0 {
      assert i > 0;
      assert s[1..][i - 1..] == s[i..];
      assert TagAt(s[1..], i - 1);
      TagShortens(s[1..], i - 1);
    }
  }

  /** Text without a `<` is kept as it is. */
  lemma NoAngleKept(s: string)
    requires '<' !in s
    ensures StripSpans(s) == s
  {
    forall i | 0 <= i < |s| ensures !TagAt(s, i) {
      assert s[i..][0] == s[i];
    }
    NoTagKept(s);
  }

  /** The text `<span...>` or `</span...>`, with `x` free of `>`. */
  function SpanTag(closing: bool, x: string): string
  {
    "<" + (if closing then "/" else "") + "span" + x + ">"
  }

  /** Such a text is a whole tag, whatever follows it. */
  lemma SpanTagLength(closing: bool, x: string, rest: string)
    requires '>' !in x
    ensures TagLength(SpanTag(closing, x) + rest) == |SpanTag(closing, x)|
  {
    var t := SpanTag(closing, x);
    var s := t + rest;
    var k := if closing then 2 else 1;
    assert s[k..k + 4] == "span";
    var tail := s[k + 4..];
    assert tail == x + ">" + rest;
    assert tail[|x|] == '>' && tail[..|x|] == x;
    FirstIndexAt(tail, '>', |x|);
  }

  /** A character that starts no tag is kept. */
  lemma StripKeeps(s: string)
    requires s != [] && s[0] != '<'
    ensures StripSpans(s) == [s[0]] + StripSpans(s[1..])
  {
  }

  /** A tag at the start is dropped. */
  lemma StripDrops(s: string)
    requires TagLength(s) > 0
    ensures StripSpans(s) == StripSpans(s[TagLength(s)..])
  {
  }

  /** Text without `<` in front is kept as it is. */
  lemma {:induction false} StripAfterPlain(a: string, b: string)
    requires '<' !in a
    ensures StripSpans(a + b) == a + StripSpans(b)
    decreases |a|
  {
    if a != [] {
      var s := a + b;
      assert s[0] == a[0];
      assert s[1..] == a[1..] + b;
      StripKeeps(s);
      StripAfterPlain(a[1..], b);
      assert [a[0]] + (a[1..] + StripSpans(b)) == a + StripSpans(b);
    } else {
      assert a + b == b;
    }
  }

  /** A tag preceded by text without `<` is removed and the text kept. */
  lemma StripBeforeTag(a: string, closing: bool, x: string, rest: string)
    requires '<' !in a && '>' !in x
    ensures StripSpans(a + (SpanTag(closing, x) + rest)) == a + StripSpans(rest)
  {
    var t := SpanTag(closing, x);
    StripAfterPlain(a, t + rest);
    SpanTagLength(closing, x, rest);
    StripDrops(t + rest);
    assert (t + rest)[|t|..] == rest;
  }

  /** A search result whose match is highlighted, `a<span x>b</span>c`,
      loses both tags and keeps the rest of its text. */
  lemma StripHighlighted(a: string, x: string, b: string, c: string)
    requires '<' !in a && '<' !in b && '<' !in c && '>' !in x
    ensures StripSpans(a + (SpanTag(false, x) + (b + (SpanTag(true, []) + c)))) == a + (b + c)
  {
    StripBeforeTag(a, false, x, b + (SpanTag(true, []) + c));
    StripBeforeTag(b, true, [], c);
    NoAngleKept(c);
  }

  /** The replacement is not idempotent: in `<<span>span>` the tag in the
      middle goes, and what is left, `<span>`, is a tag again. */
  lemma StripSpansNotIdempotent()
    ensures StripSpans("<" + (SpanTag(false, []) + "span>")) == SpanTag(false, [])
    ensures StripSpans(SpanTag(false, [])) == []
  {
    var t := SpanTag(false, []);
    var s := "<" + (t + "span>");
    assert |s| >= 2 && s[0] == '<' && s[1] == '<';
    NoTagBeforeAngle(s);
    assert s[1..] == t + "span>";
    InnerTagDropped();
    PlainOpeningTag();
    TagAlone();
  }

  lemma PlainOpeningTag()
    ensures "<" + "span>" == SpanTag(false, [])
  {
  }

  lemma InnerTagDropped()
    ensures StripSpans(SpanTag(false, []) + "span>") == "span>"
  {
    var t := SpanTag(false, []);
    SpanTagLength(false, [], "span>");
    StripDrops(t + "span>");
    assert (t + "span>")[|t|..] == "span>";
    NoAngleKept("span>");
  }

  lemma TagAlone()
    ensures StripSpans(SpanTag(false, [])) == []
  {
    var t := SpanTag(false, []);
    SpanTagLength(false, [], []);
    assert t + [] == t;
    StripDrops(t);
    assert t[|t|..] == [];
  }

  /** A `<` followed by another `<` starts no tag. */
  lemma NoTagBeforeAngle(s: string)
    requires |s| >= 2 && s[0] == '<' && s[1] == '<'
    ensures TagLength(s) == 0
    ensures StripSpans(s) == "<" + StripSpans(s[1..])
  {
    if |s| >= 5 {
      assert s[1..5][0] == '<';
    }
  }

  // ---------------------------------------------------------------------
  // Related topics and the answer

  /** One Wikipedia search result. */
  datatype WikiResult = WikiResult(title: string, snippet: string)

  function Cleaned(result: WikiResult): (r: WikiResult)
  {
    WikiResult(result.title, StripSpans(result.snippet))
  }

  /** The results of one term's search with their snippets cleaned. */
  function CleanedResults(results: seq<WikiResult>): (r: seq<WikiResult>)
  {
    Map(results, Cleaned)
  }

  /** `wikiResults.flat().slice(0, 10)`: the cleaned results of every key
      term, term by term, the first ten kept. */
  function RelatedTopics(searches: seq<seq<WikiResult>>): (topics: seq<WikiResult>)
  {
    Take(Flatten(Map(searches, CleanedResults)), MaxRelated)
  }

  /** An entry of the answer: a trend or a related topic, tagged by its
      `type` field. */
  datatype Recommendation =
    | TrendItem(topic: string, description: string, url: string, stars: int, language: string)
    | TopicItem(title: string, snippet: string)

  function TrendEntry(t: Trend): (r: Recommendation)
  {
    TrendItem(t.topic, t.description, t.url, t.stars, t.language)
  }

  function TopicEntry(w: WikiResult): (r: Recommendation)
  {
    TopicItem(w.title, w.snippet)
  }

  /** `[...trends.map(...), ...relatedTopics.map(...)]`. */
  function Combine(trends: seq<Trend>, topics: seq<WikiResult>): (recs: seq<Recommendation>)
  {
    Map(trends, TrendEntry) + Map(topics, TopicEntry)
  }

  /** The route's answer for the key terms, the trending repositories and
      the search results of each key term. */
  function GetRecommendations(terms: seq<string>, repos: seq<Repo>, searches: seq<seq<WikiResult>>)
    : (recs: seq<Recommendation>)
  {
    Combine(Trends(repos, terms), RelatedTopics(searches))
  }

  /** Every trend comes before every topic; the answer holds the trends,
      then the topics, no more and no less. */
  lemma CombineProperties(trends: seq<Trend>, topics: seq<WikiResult>)
    ensures |Combine(trends, topics)| == |trends| + |topics|
    ensures forall i, j :: 0 <= i < j < |Combine(trends, topics)| && Combine(trends, topics)[i].TopicItem? ==>
      Combine(trends, topics)[j].TopicItem?
    ensures forall i :: 0 <= i < |trends| ==> Combine(trends, topics)[i] == TrendEntry(trends[i])
    ensures forall i :: 0 <= i < |topics| ==> Combine(trends, topics)[|trends| + i] == TopicEntry(topics[i])
  {
    var recs := Combine(trends, topics);
    MapIndex(trends, TrendEntry);
    MapIndex(topics, TopicEntry);
    forall i | 0 <= i < |recs| ensures recs[i].TopicItem? <==> i >= |trends| {
      if i < |trends| {
        assert recs[i] == TrendEntry(trends[i]);
      } else {
        assert recs[i] == TopicEntry(topics[i - |trends|]);
      }
    }
  }

  /** Each related topic is a cleaned result of one key term's search, at
      most ten are kept, and the answer holds at most twenty entries. */
  lemma RecommendationsBound(terms: seq<string>, repos: seq<Repo>, searches: seq<seq<WikiResult>>)
    ensures |RelatedTopics(searches)| <= MaxRelated
    ensures forall r :: r in RelatedTopics(searches) ==>
      exists k, m :: 0 <= k < |searches| && 0 <= m < |searches[k]| && r == Cleaned(searches[k][m])
    ensures |GetRecommendations(terms, repos, searches)| <= MaxTrends + MaxRelated
  {
    TrendsProperties(repos, terms);
    CombineProperties(Trends(repos, terms), RelatedTopics(searches));
    var cleaned := Map(searches, CleanedResults);
    forall r | r in RelatedTopics(searches)
      ensures exists k, m :: 0 <= k < |searches| && 0 <= m < |searches[k]| && r == Cleaned(searches[k][m])
    {
      var i :| 0 <= i < |RelatedTopics(searches)| && RelatedTopics(searches)[i] == r;
      assert r in Flatten(cleaned);
      FlattenMembership(cleaned, r);
      var k :| 0 <= k < |cleaned| && r in cleaned[k];
      var m :| 0 <= m < |cleaned[k]| && cleaned[k][m] == r;
      MapIndex(searches, CleanedResults);
      assert cleaned[k] == CleanedResults(searches[k]);
      MapIndex(searches[k], Cleaned);
    }
  }
}
