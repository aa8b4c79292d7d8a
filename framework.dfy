/** The content-framework route of the server (`POST /api/generate-framework`):
    a five-section outline written from the first terms of the content and
    the target platform. The terms are those TF-IDF ranks first; they are
    an input here. */
module Framework {
  import opened Wrappers
  import opened Lists
  import opened JsString

  /** How many TF-IDF terms the route keeps. */
  const MaxTopics := 5

  const DefaultHook := "Introduce the main topic"
  const DefaultContext := "this topic"
  const FrameworkFailed := "Failed to generate framework"

  /** `topics[0] || fallback`: the first term, unless there is none or it
      is the empty string. */
  function FirstOr(topics: seq<string>, fallback: string): (r: string)
  {
    if topics == [] || topics[0] == "" then fallback else topics[0]
  }

  /** `tfidf.listTerms(0).slice(0, 5).map(item => item.term)`. */
  function TopicsOf(terms: seq<string>): (topics: seq<string>)
  {
    Take(terms, MaxTopics)
  }

  /** `topics.slice(1, 4)`: the terms after the first, three at most. */
  function PointTopics(topics: seq<string>): (r: seq<string>)
  {
    if |topics| <= 1 then [] else Take(topics[1..], 3)
  }

  /** One line per main point, `   ${index + 1}. Discuss ${topic}`. */
  function MainPointLines(topics: seq<string>): (lines: seq<string>)
  {
    var points := PointTopics(topics);
    seq(|points|, k requires 0 <= k < |points| => "   " + Decimal(k + 1) + ". Discuss " + points[k])
  }

  /** The lines of the main points joined by line breaks. */
  function MainPoints(topics: seq<string>): (block: string)
  {
    Join(MainPointLines(topics), '\n')
  }

  function HookLine(topics: seq<string>): string
  {
    "   - Hook: " + FirstOr(topics, DefaultHook)
  }

  function ContextLine(topics: seq<string>, platform: string): string
  {
    "   - Context: Why " + FirstOr(topics, DefaultContext) + " matters for " + platform + " audience"
  }

  function HashtagLine(first: string, platform: string): string
  {
    "   #" + RemoveWhitespace(first) + " #" + platform + "Trends"
  }

  function Introduction(topics: seq<string>, platform: string): string
  {
    "\n1. Introduction\n" + HookLine(topics) + ("\n" + ContextLine(topics, platform) + "\n")
  }

  function MainPointsSection(topics: seq<string>): string
  {
    "\n2. Main Points\n   " + MainPoints(topics) + "\n"
  }

  function Elaboration(first: string): string
  {
    "\n3. Elaboration\n"
    + "   - Provide examples or case studies related to " + first + "\n"
    + "   - Address potential questions or concerns\n"
  }

  function CallToAction(first: string): string
  {
    "\n4. Call to Action\n"
    + "   - Encourage engagement with " + first + "\n"
    + "   - Prompt for shares/likes\n"
  }

  function Hashtags(first: string, platform: string): string
  {
    "\n5. Hashtags\n" + HashtagLine(first, platform) + "\n    "
  }

  /** The framework text, section by section. Building it reads
      `topics[0].replace(...)`, which throws on an empty term list; the
      route then answers status 500. */
  function GenerateFramework(topics: seq<string>, platform: string): (r: Result<string, string>)
    ensures r.Failure? <==> topics == []
    ensures r.Failure? ==> r.error == FrameworkFailed
  {
    if topics == [] then Failure(FrameworkFailed)
    else
      Success(Introduction(topics, platform) + (MainPointsSection(topics)
        + (Elaboration(topics[0]) + (CallToAction(topics[0]) + Hashtags(topics[0], platform)))))
  }

  /** At most three main points, numbered from 1 and taken in order from
      the second, third and fourth terms; the numbers follow the topic, so
      no point is missing or repeated. */
  lemma MainPointsNumbered(topics: seq<string>)
    ensures |MainPointLines(topics)| == if |topics| <= 1 then 0 else if |topics| >= 4 then 3 else |topics| - 1
    ensures forall k :: 0 <= k < |MainPointLines(topics)| ==>
      MainPointLines(topics)[k] == "   " + Decimal(k + 1) + ". Discuss " + topics[k + 1]
  {
  }

  /** When no term holds a line break, the main-points block splits back
      into its lines, one per point; with one term or none the block is empty. */
  lemma MainPointsSplit(topics: seq<string>)
    requires forall k :: 0 <= k < |topics| ==> '\n' !in topics[k]
    ensures |topics| <= 1 ==> MainPoints(topics) == ""
    ensures |topics| > 1 ==> Split(MainPoints(topics), '\n') == MainPointLines(topics)
  {
    var lines := MainPointLines(topics);
    MainPointsNumbered(topics);
    forall k | 0 <= k < |lines| ensures '\n' !in lines[k] {
      var number := Decimal(k + 1);
      assert lines[k] == "   " + number + ". Discuss " + topics[k + 1];
      assert '\n' !in number;
    }
    if |topics| > 1 {
      SplitJoin(lines, '\n');
    }
  }

  /** The hook names the first term, or falls back to a default text when
      the first term is empty. */
  lemma FrameworkHook(topics: seq<string>, platform: string)
    requires topics != []
    ensures GenerateFramework(topics, platform).Success?
    ensures Includes(GenerateFramework(topics, platform).value, HookLine(topics))
    ensures HookLine(topics) == "   - Hook: " + (if topics[0] == "" then DefaultHook else topics[0])
  {
    var after := MainPointsSection(topics) + (Elaboration(topics[0]) + (CallToAction(topics[0])
      + Hashtags(topics[0], platform)));
    IncludesInfix("\n1. Introduction\n", HookLine(topics), "\n" + ContextLine(topics, platform) + "\n");
    IncludesRight(Introduction(topics, platform), after, HookLine(topics));
  }

  /** The main points appear under their heading. */
  lemma FrameworkMainPoints(topics: seq<string>, platform: string)
    requires topics != []
    ensures GenerateFramework(topics, platform).Success?
    ensures Includes(GenerateFramework(topics, platform).value, MainPointsSection(topics))
  {
    var points := MainPointsSection(topics);
    var after := Elaboration(topics[0]) + (CallToAction(topics[0]) + Hashtags(topics[0], platform));
    IncludesInfix([], points, after);
    assert [] + points + after == points + after;
    IncludesLeft(Introduction(topics, platform), points + after, points);
  }

  /** The hashtag line carries the first term with its whitespace removed,
      so that its first hashtag is a single word. */
  lemma FrameworkHashtags(topics: seq<string>, platform: string)
    requires topics != []
    ensures GenerateFramework(topics, platform).Success?
    ensures Includes(GenerateFramework(topics, platform).value, HashtagLine(topics[0], platform))
    ensures forall i :: 0 <= i < |RemoveWhitespace(topics[0])| ==> !IsWhitespace(RemoveWhitespace(topics[0])[i])
  {
    var line := HashtagLine(topics[0], platform);
    var tags := Hashtags(topics[0], platform);
    var cta := CallToAction(topics[0]) + tags;
    var elaboration := Elaboration(topics[0]) + cta;
    var points := MainPointsSection(topics) + elaboration;
    IncludesInfix("\n5. Hashtags\n", line, "\n    ");
    IncludesLeft(CallToAction(topics[0]), tags, line);
    IncludesLeft(Elaboration(topics[0]), cta, line);
    IncludesLeft(MainPointsSection(topics), elaboration, line);
    IncludesLeft(Introduction(topics, platform), points, line);
  }

  /** The route's terms are the first five TF-IDF terms, in rank order,
      and the outline built from them fails exactly when there is no term
      at all. */
  lemma RouteTopics(terms: seq<string>, platform: string)
    ensures |TopicsOf(terms)| == if |terms| < MaxTopics then |terms| else MaxTopics
    ensures TopicsOf(terms) == terms[..|TopicsOf(terms)|]
    ensures GenerateFramework(TopicsOf(terms), platform).Failure? <==> terms == []
  {
    var topics := TopicsOf(terms);
    if |terms| >= MaxTopics {
      assert topics == terms[..MaxTopics];
    }
    assert topics == terms[..|topics|];
  }

  /** With no term at all the route fails, whatever the platform. */
  lemma EmptyTopicsFail(platform: string)
    ensures GenerateFramework([], platform) == Failure(FrameworkFailed)
  {
  }
}
