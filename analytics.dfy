/** The aggregation loop of the client's `Analytics` page: generated-content
    documents are counted per platform, in a list kept in order of first
    occurrence, and per day, in a dictionary. */
module Analytics {
  import opened Lists

  /** A generated-content document, reduced to what the loop reads: its
      platform and its creation day (the `YYYY-MM-DD` key that
      `toISOString().split('T')[0]` yields, taken as given). */
  datatype Doc = Doc(platform: string, dateKey: string)

  /** An entry of the per-platform list. */
  datatype ContentAnalytics = ContentAnalytics(platform: string, count: nat)

  /** An entry of the per-day list built from the dictionary. */
  datatype DailyAnalytics = DailyAnalytics(date: string, count: nat)

  function Platforms(docs: seq<Doc>): (ps: seq<string>)
    ensures |ps| == |docs|
  {
    seq(|docs|, i requires 0 <= i < |docs| => docs[i].platform)
  }

  function Dates(docs: seq<Doc>): (ds: seq<string>)
    ensures |ds| == |docs|
  {
    seq(|docs|, i requires 0 <= i < |docs| => docs[i].dateKey)
  }

  function PlatformKeys(a: seq<ContentAnalytics>): seq<string>
  {
    seq(|a|, j requires 0 <= j < |a| => a[j].platform)
  }

  function PlatformCounts(a: seq<ContentAnalytics>): seq<nat>
  {
    seq(|a|, j requires 0 <= j < |a| => a[j].count)
  }

  function DailyKeys(a: seq<DailyAnalytics>): seq<string>
  {
    seq(|a|, j requires 0 <= j < |a| => a[j].date)
  }

  function DailyCounts(a: seq<DailyAnalytics>): seq<nat>
  {
    seq(|a|, j requires 0 <= j < |a| => a[j].count)
  }

  /** The number of occurrences in `ks` of each of `keys`, in turn. */
  function CountsOf<K(==)>(keys: seq<K>, ks: seq<K>): (r: seq<nat>)
    ensures |r| == |keys|
  {
    seq(|keys|, j requires 0 <= j < |keys| => Count(ks, keys[j]))
  }

  /** `analytics.find(a => a.platform === p)`, as the index of the entry
      found, or -1 when there is none. */
  function FindPlatform(analytics: seq<ContentAnalytics>, p: string): (k: int)
    ensures -1 <= k < |analytics|
    ensures k >= 0 ==> analytics[k].platform == p
    ensures k < 0 <==> p !in PlatformKeys(analytics)
  {
    if analytics == [] then -1
    else if analytics[0].platform == p then
      assert PlatformKeys(analytics)[0] == p;
      0
    else
      var k := FindPlatform(analytics[1..], p);
      assert PlatformKeys(analytics) == [analytics[0].platform] + PlatformKeys(analytics[1..]);
      if k < 0 then -1 else k + 1
  }

  // ---------------------------------------------------------------------
  // Counting: the counts of the distinct keys add up to the number of keys

  lemma CountsOfAppendKey<K>(keys: seq<K>, k: K, ks: seq<K>)
    ensures CountsOf(keys + [k], ks) == CountsOf(keys, ks) + [Count(ks, k)]
  {
  }

  /** Adding one more element `x` raises the total over `keys` by the
      number of times `x` is among the keys. */
  lemma {:induction false} SumCountsOfAppend<K>(keys: seq<K>, ks: seq<K>, x: K)
    ensures Sum(CountsOf(keys, ks + [x])) == Sum(CountsOf(keys, ks)) + Count(keys, x)
    decreases |keys|
  {
    if keys != [] {
      var keys' := keys[..|keys| - 1];
      var k := keys[|keys| - 1];
      assert keys == keys' + [k];
      SumCountsOfAppend(keys', ks, x);
      CountsOfAppendKey(keys', k, ks + [x]);
      CountsOfAppendKey(keys', k, ks);
      CountAppend(ks, k, x);
      CountAppend(keys', x, k);
      assert CountsOf(keys, ks + [x])[..|keys'|] == CountsOf(keys', ks + [x]);
      assert CountsOf(keys, ks)[..|keys'|] == CountsOf(keys', ks);
    }
  }

  /** In a list without duplicates an element occurs at most once. */
  lemma {:induction false} CountDistinct<K>(s: seq<K>, x: K)
    requires Distinct(s)
    ensures Count(s, x) == if x in s then 1 else 0
  {
    if s != [] {
      var s' := s[..|s| - 1];
      assert Distinct(s');
      CountDistinct(s', x);
      assert s == s' + [s[|s| - 1]];
    }
  }

  /** Summing, over the distinct keys of `ks`, how often each occurs in
      `ks` gives the length of `ks`. */
  lemma {:induction false} TallyTotal<K>(ks: seq<K>)
    ensures Sum(CountsOf(FirstOccurrences(ks), ks)) == |ks|
  {
    if ks != [] {
      var p := ks[..|ks| - 1];
      var x := ks[|ks| - 1];
      assert ks == p + [x];
      var keys := FirstOccurrences(p);
      TallyTotal(p);
      FirstOccurrencesDistinct(p);
      FirstOccurrencesMembership(p, x);
      CountDistinct(keys, x);
      SumCountsOfAppend(keys, p, x);
      if x !in p {
        CountsOfAppendKey(keys, x, ks);
        assert CountsOf(keys + [x], ks)[..|keys|] == CountsOf(keys, ks);
        CountAppend(p, x, x);
      }
    }
  }

  // ---------------------------------------------------------------------
  // The loop

  /** The body of `fetchAnalytics` after the query: one pass over the
      documents fills `analytics` and `dailyData`; `dailyAnalytics` is
      `Object.entries(dailyData)` mapped to records. */
  method AggregateContent(docs: seq<Doc>)
    returns (analytics: seq<ContentAnalytics>, dailyData: map<string, nat>,
             dailyAnalytics: seq<DailyAnalytics>)
    // each platform once, in order of its first document
    ensures PlatformKeys(analytics) == FirstOccurrences(Platforms(docs))
    // the count of a platform is its number of documents
    ensures PlatformCounts(analytics) == CountsOf(PlatformKeys(analytics), Platforms(docs))
    // the days stored are exactly the days of the documents, with their numbers of documents
    ensures forall d :: d in dailyData <==> d in Dates(docs)
    ensures forall d :: d in dailyData ==> dailyData[d] == Count(Dates(docs), d)
    // the per-day list follows the dictionary's key order
    ensures DailyKeys(dailyAnalytics) == FirstOccurrences(Dates(docs))
    ensures forall j :: 0 <= j < |dailyAnalytics| ==>
      dailyAnalytics[j].date in dailyData && dailyAnalytics[j].count == dailyData[dailyAnalytics[j].date]
  {
    analytics := [];
    dailyData := map[];
    // a JavaScript object lists its string keys in the order they were
    // first set; the keys here are never array indices
    var keyOrder: seq<string> := [];
    ghost var ps: seq<string> := [];
    ghost var ds: seq<string> := [];
    var i := 0;
    while i < |docs|
      invariant 0 <= i <= |docs|
      invariant ps == Platforms(docs[..i]) && ds == Dates(docs[..i])
      invariant PlatformKeys(analytics) == FirstOccurrences(ps)
      invariant PlatformCounts(analytics) == CountsOf(PlatformKeys(analytics), ps)
      invariant keyOrder == FirstOccurrences(ds)
      invariant forall d :: d in dailyData <==> d in ds
      invariant forall d :: d in dailyData ==> dailyData[d] == Count(ds, d)
    {
      var doc := docs[i];
      assert Platforms(docs[..i + 1]) == ps + [doc.platform];
      assert Dates(docs[..i + 1]) == ds + [doc.dateKey];

      // platform analytics
      var k := FindPlatform(analytics, doc.platform);
      if k >= 0 {
        PlatformStep(analytics, ps, k);
        analytics := analytics[k := analytics[k].(count := analytics[k].count + 1)];
      } else {
        NewPlatformStep(analytics, ps, doc.platform);
        analytics := analytics + [ContentAnalytics(doc.platform, 1)];
      }
      ps := ps + [doc.platform];

      // daily analytics
      var date := doc.dateKey;
      DailyStep(dailyData, keyOrder, ds, date);
      if date !in dailyData {
        keyOrder := keyOrder + [date];
      }
      dailyData := dailyData[date := (if date in dailyData then dailyData[date] else 0) + 1];
      ds := ds + [date];
      i := i + 1;
    }
    assert docs[..i] == docs;
    dailyAnalytics := seq(|keyOrder|, j requires 0 <= j < |keyOrder| =>
      DailyAnalytics(keyOrder[j], if keyOrder[j] in dailyData then dailyData[keyOrder[j]] else 0));
    forall j | 0 <= j < |keyOrder| ensures keyOrder[j] in dailyData {
      FirstOccurrencesMembership(Dates(docs), keyOrder[j]);
    }
    assert DailyKeys(dailyAnalytics) == keyOrder;
  }

  /** One more document of a platform already listed at index `k`. */
  lemma PlatformStep(analytics: seq<ContentAnalytics>, ps: seq<string>, k: int)
    requires 0 <= k < |analytics|
    requires PlatformKeys(analytics) == FirstOccurrences(ps)
    requires PlatformCounts(analytics) == CountsOf(PlatformKeys(analytics), ps)
    ensures var a := analytics[k := analytics[k].(count := analytics[k].count + 1)];
      && PlatformKeys(a) == FirstOccurrences(ps + [analytics[k].platform])
      && PlatformCounts(a) == CountsOf(PlatformKeys(a), ps + [analytics[k].platform])
  {
    var p := analytics[k].platform;
    var a := analytics[k := analytics[k].(count := analytics[k].count + 1)];
    assert FirstOccurrences(ps)[k] == p;
    FirstOccurrencesMembership(ps, p);
    FirstOccurrencesAppend(ps, p);
    FirstOccurrencesDistinct(ps);
    assert PlatformKeys(a) == PlatformKeys(analytics);
    forall j | 0 <= j < |a| ensures PlatformCounts(a)[j] == Count(ps + [p], PlatformKeys(a)[j]) {
      CountAppend(ps, PlatformKeys(a)[j], p);
      assert PlatformCounts(analytics)[j] == Count(ps, PlatformKeys(a)[j]);
    }
  }

  /** One more document of day `date`: the dictionary entry, created at 1
      or incremented, and the key order of the dictionary. */
  lemma DailyStep(dailyData: map<string, nat>, keyOrder: seq<string>, ds: seq<string>, date: string)
    requires keyOrder == FirstOccurrences(ds)
    requires forall d :: d in dailyData <==> d in ds
    requires forall d :: d in dailyData ==> dailyData[d] == Count(ds, d)
    ensures var m := dailyData[date := (if date in dailyData then dailyData[date] else 0) + 1];
      && (if date in dailyData then keyOrder else keyOrder + [date]) == FirstOccurrences(ds + [date])
      && (forall d :: d in m <==> d in ds + [date])
      && (forall d :: d in m ==> m[d] == Count(ds + [date], d))
  {
    FirstOccurrencesAppend(ds, date);
    forall d ensures Count(ds + [date], d) == Count(ds, d) + (if d == date then 1 else 0) {
      CountAppend(ds, d, date);
    }
  }

  /** The first document of a platform not yet listed. */
  lemma NewPlatformStep(analytics: seq<ContentAnalytics>, ps: seq<string>, p: string)
    requires p !in PlatformKeys(analytics)
    requires PlatformKeys(analytics) == FirstOccurrences(ps)
    requires PlatformCounts(analytics) == CountsOf(PlatformKeys(analytics), ps)
    ensures var a := analytics + [ContentAnalytics(p, 1)];
      && PlatformKeys(a) == FirstOccurrences(ps + [p])
      && PlatformCounts(a) == CountsOf(PlatformKeys(a), ps + [p])
  {
    NewPlatformKeys(analytics, ps, p);
    FirstOccurrencesMembership(ps, p);
    NewPlatformCounts(analytics, ps, p);
  }

  lemma NewPlatformKeys(analytics: seq<ContentAnalytics>, ps: seq<string>, p: string)
    requires p !in PlatformKeys(analytics)
    requires PlatformKeys(analytics) == FirstOccurrences(ps)
    ensures PlatformKeys(analytics + [ContentAnalytics(p, 1)]) == PlatformKeys(analytics) + [p]
    ensures PlatformKeys(analytics) + [p] == FirstOccurrences(ps + [p])
  {
    FirstOccurrencesMembership(ps, p);
    FirstOccurrencesAppend(ps, p);
  }

  lemma NewPlatformCounts(analytics: seq<ContentAnalytics>, ps: seq<string>, p: string)
    requires p !in PlatformKeys(analytics)
    requires p !in ps
    requires PlatformCounts(analytics) == CountsOf(PlatformKeys(analytics), ps)
    ensures PlatformCounts(analytics + [ContentAnalytics(p, 1)]) == CountsOf(PlatformKeys(analytics) + [p], ps + [p])
  {
    var keys := PlatformKeys(analytics);
    assert PlatformCounts(analytics + [ContentAnalytics(p, 1)]) == PlatformCounts(analytics) + [1];
    CountsOfAppendKey(keys, p, ps + [p]);
    CountAppend(ps, p, p);
    forall j | 0 <= j < |keys| ensures Count(ps + [p], keys[j]) == Count(ps, keys[j]) {
      CountAppend(ps, keys[j], p);
    }
    assert CountsOf(keys, ps + [p]) == CountsOf(keys, ps);
  }

  // ---------------------------------------------------------------------
  // What the results promise

  /** The per-platform list: each platform at most once, each count at
      least 1 and equal to the platform's number of documents, and every
      platform of a document listed. */
  lemma PlatformTallyShape(docs: seq<Doc>, analytics: seq<ContentAnalytics>)
    requires PlatformKeys(analytics) == FirstOccurrences(Platforms(docs))
    requires PlatformCounts(analytics) == CountsOf(PlatformKeys(analytics), Platforms(docs))
    ensures Distinct(PlatformKeys(analytics))
    ensures forall j :: 0 <= j < |analytics| ==>
      analytics[j].count == Count(Platforms(docs), analytics[j].platform) >= 1
    ensures forall p :: p in Platforms(docs) <==> p in PlatformKeys(analytics)
  {
    var ps := Platforms(docs);
    var keys := PlatformKeys(analytics);
    FirstOccurrencesDistinct(ps);
    forall p ensures p in ps <==> p in keys {
      FirstOccurrencesMembership(ps, p);
    }
    forall j | 0 <= j < |analytics|
      ensures analytics[j].count == Count(ps, analytics[j].platform) >= 1
    {
      assert keys[j] == analytics[j].platform;
      assert PlatformCounts(analytics)[j] == analytics[j].count;
    }
  }

  /** Both `x` and `y` occur in `s`, and `x` first occurs before `y`. */
  predicate FirstSeenBefore(s: seq<string>, x: string, y: string)
  {
    x in s && y in s && FirstIndex(s, x) < FirstIndex(s, y)
  }

  /** The platforms are listed in the order of their first documents. */
  lemma PlatformTallyOrder(docs: seq<Doc>, analytics: seq<ContentAnalytics>)
    requires PlatformKeys(analytics) == FirstOccurrences(Platforms(docs))
    ensures forall i, j :: 0 <= i < j < |analytics| ==>
      FirstSeenBefore(Platforms(docs), analytics[i].platform, analytics[j].platform)
  {
    var ps := Platforms(docs);
    var keys := PlatformKeys(analytics);
    FirstOccurrencesOrder(ps);
    forall i, j | 0 <= i < j < |analytics|
      ensures FirstSeenBefore(ps, analytics[i].platform, analytics[j].platform)
    {
      assert keys[i] == analytics[i].platform && keys[j] == analytics[j].platform;
      assert keys[i] in FirstOccurrences(ps) && keys[j] in FirstOccurrences(ps);
    }
  }

  /** The per-platform counts add up to the number of documents. */
  lemma PlatformTallyTotal(docs: seq<Doc>, analytics: seq<ContentAnalytics>)
    requires PlatformKeys(analytics) == FirstOccurrences(Platforms(docs))
    requires PlatformCounts(analytics) == CountsOf(PlatformKeys(analytics), Platforms(docs))
    ensures Sum(PlatformCounts(analytics)) == |docs|
  {
    TallyTotal(Platforms(docs));
  }

  /** The per-day results: every stored count is at least 1, and the counts
      of the per-day list add up to the number of documents. */
  lemma DailyTallyProperties(docs: seq<Doc>, dailyData: map<string, nat>, dailyAnalytics: seq<DailyAnalytics>)
    requires forall d :: d in dailyData <==> d in Dates(docs)
    requires forall d :: d in dailyData ==> dailyData[d] == Count(Dates(docs), d)
    requires DailyKeys(dailyAnalytics) == FirstOccurrences(Dates(docs))
    requires forall j :: 0 <= j < |dailyAnalytics| ==>
      dailyAnalytics[j].date in dailyData && dailyAnalytics[j].count == dailyData[dailyAnalytics[j].date]
    ensures forall d :: d in dailyData ==> dailyData[d] >= 1
    ensures Distinct(DailyKeys(dailyAnalytics))
    ensures Sum(DailyCounts(dailyAnalytics)) == |docs|
  {
    var ds := Dates(docs);
    FirstOccurrencesDistinct(ds);
    assert DailyCounts(dailyAnalytics) == CountsOf(DailyKeys(dailyAnalytics), ds);
    TallyTotal(ds);
  }
}
