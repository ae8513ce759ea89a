/** Analysis of collected items (src/processors/ai_analyzer.py): keyword
    classification, keyword sentiment, engagement-banded importance, and an
    AI summary and key points with deterministic fallbacks. */
module AiAnalyzer {
  import opened Text
  import opened Records
  import opened Llm
  import opened Seqs

  const PositiveWords: seq<string> := ["good", "great", "amazing", "awesome", "excellent", "好消息", "突破", "成功"]
  const NegativeWords: seq<string> := ["bad", "terrible", "awful", "problem", "issue", "bug", "坏消息", "失败", "问题"]

  /** The reply markers stripped from an AI summary. */
  const SummaryMarker: string := "摘要:"
  const ConclusionMarker: string := "总结:"
  const Ellipsis: string := "..."

  // ---------------------------------------------------------------- sentiment

  /** sum(1 for word in words if word in text) */
  function CountPresent(words: seq<string>, text: string): (n: nat)
    ensures n <= |words|
    decreases |words|
  {
    if words == [] then 0
    else (if Contains(text, words[0]) then 1 else 0) + CountPresent(words[1..], text)
  }

  /** The listed words that occur in the text. */
  function PresentWords(words: seq<string>, text: string): set<string> {
    set w | w in words && Contains(text, w)
  }

  /** With distinct words the count is the number of listed words occurring
      in the text, however often each occurs. */
  lemma {:induction false} CountPresentDistinct(words: seq<string>, text: string)
    requires Distinct(words)
    ensures CountPresent(words, text) == |PresentWords(words, text)|
    decreases |words|
  {
    if words == [] {
      assert PresentWords(words, text) == {};
    } else {
      var rest := words[1..];
      assert Distinct(rest) by {
        forall i, j | 0 <= i < j < |rest| ensures rest[i] != rest[j] {
          assert rest[i] == words[i + 1] && rest[j] == words[j + 1];
        }
      }
      CountPresentDistinct(rest, text);
      var all := PresentWords(words, text);
      var tail := PresentWords(rest, text);
      assert words[0] !in rest by {
        forall k | 0 <= k < |rest| ensures rest[k] != words[0] {
          assert rest[k] == words[k + 1];
        }
      }
      assert forall w :: w in words <==> w == words[0] || w in rest by {
        assert words == [words[0]] + rest;
      }
      if Contains(text, words[0]) {
        assert forall w :: w in all <==> w == words[0] || w in tail;
        assert all == {words[0]} + tail;
        assert words[0] !in tail;
        assert |all| == 1 + |tail|;
        assert CountPresent(words, text) == 1 + CountPresent(rest, text);
      } else {
        assert forall w :: w in all <==> w in tail;
        assert all == tail;
        assert CountPresent(words, text) == CountPresent(rest, text);
      }
    }
  }

  /** _analyze_sentiment: more positive words than negative ones is positive,
      more negative is negative, and any tie (0/0 included) is neutral. */
  function AnalyzeSentiment(text: string): (s: Sentiment)
    ensures var pos := CountPresent(PositiveWords, Lower(text));
            var neg := CountPresent(NegativeWords, Lower(text));
            && (s == PositiveSentiment <==> pos > neg)
            && (s == NegativeSentiment <==> neg > pos)
            && (s == NeutralSentiment <==> pos == neg)
  {
    var lowered := Lower(text);
    var pos := CountPresent(PositiveWords, lowered);
    var neg := CountPresent(NegativeWords, lowered);
    if pos > neg then PositiveSentiment
    else if neg > pos then NegativeSentiment
    else NeutralSentiment
  }

  /** Each side of the comparison counts distinct listed words, not occurrences. */
  lemma SentimentCountsDistinctWords(text: string)
    ensures CountPresent(PositiveWords, Lower(text)) == |PresentWords(PositiveWords, Lower(text))|
    ensures CountPresent(NegativeWords, Lower(text)) == |PresentWords(NegativeWords, Lower(text))|
  {
    PositiveWordsDistinct();
    NegativeWordsDistinct();
    CountPresentDistinct(PositiveWords, Lower(text));
    CountPresentDistinct(NegativeWords, Lower(text));
  }

  lemma PositiveWordsDistinct()
    ensures Distinct(PositiveWords)
  {
  }

  lemma NegativeWordsDistinct()
    ensures Distinct(NegativeWords)
  {
  }

  // ----------------------------------------------------------- classification

  /** Some keyword of c occurs, case-insensitively, in the lowered text. */
  predicate CategoryMatches(c: Category, lowered: string) {
    exists k :: k in c.keywords && Contains(lowered, Lower(k))
  }

  /** The index of the first matching category, or |categories| when none matches. */
  function FirstMatching(categories: seq<Category>, lowered: string): (i: nat)
    ensures i <= |categories|
    ensures i < |categories| ==> CategoryMatches(categories[i], lowered)
    ensures forall j :: 0 <= j < i ==> !CategoryMatches(categories[j], lowered)
    decreases |categories|
  {
    if categories == [] then 0
    else if CategoryMatches(categories[0], lowered) then 0
    else 1 + FirstMatching(categories[1..], lowered)
  }

  /** _classify: the first category in list order with a keyword in the text;
      otherwise the first category, or the default label when there is none. */
  function Classify(categories: seq<Category>, text: string): (name: string)
    ensures forall i :: (0 <= i < |categories| && CategoryMatches(categories[i], Lower(text)) &&
              (forall j :: 0 <= j < i ==> !CategoryMatches(categories[j], Lower(text)))) ==>
              name == categories[i].name
    ensures (forall j :: 0 <= j < |categories| ==> !CategoryMatches(categories[j], Lower(text))) ==>
              name == if categories == [] then DefaultCategory else categories[0].name
  {
    var i := FirstMatching(categories, Lower(text));
    if i < |categories| then categories[i].name
    else if categories != [] then categories[0].name
    else DefaultCategory
  }

  // --------------------------------------------------------------- importance

  /** The engagement bands, checked from the top with strict comparisons:
      only one of +3, +2, +1 applies. */
  function EngagementBand(score: int, comments: int): (b: nat)
    ensures b <= 3
    ensures b == 3 <==> score > 1000 || comments > 500
    ensures b >= 2 <==> score > 500 || comments > 200
    ensures b >= 1 <==> score > 100 || comments > 50
  {
    if score > 1000 || comments > 500 then 3
    else if score > 500 || comments > 200 then 2
    else if score > 100 || comments > 50 then 1
    else 0
  }

  /** _calculate_importance: min(band + positive, 5) or 1. Missing engagement
      values count as 0. */
  function Importance(item: Item, sentiment: Sentiment): (r: int)
    ensures 1 <= r <= 4
    ensures EngagementBand(EngagementScore(item), EngagementComments(item)) == 0 && sentiment.polarity != Positive ==> r == 1
    ensures r >= EngagementBand(EngagementScore(item), EngagementComments(item))
    ensures var band := EngagementBand(EngagementScore(item), EngagementComments(item));
            && (sentiment.polarity != Positive ==> r == if band == 0 then 1 else band)
            && (sentiment.polarity == Positive ==> r == band + 1)
  {
    var score := EngagementBand(EngagementScore(item), EngagementComments(item)) +
                 (if sentiment.polarity == Positive then 1 else 0);
    var clamped := if score < 5 then score else 5;
    if clamped == 0 then 1 else clamped
  }

  /** More engagement never lowers importance. */
  lemma ImportanceMonotone(a: Item, b: Item, sentiment: Sentiment)
    requires EngagementScore(a) <= EngagementScore(b) && EngagementComments(a) <= EngagementComments(b)
    ensures Importance(a, sentiment) <= Importance(b, sentiment)
  {
    var ba := EngagementBand(EngagementScore(a), EngagementComments(a));
    var bb := EngagementBand(EngagementScore(b), EngagementComments(b));
    assert ba <= bb;
  }

  /** A positive sentiment adds one point only when some engagement band is hit:
      with no band, positive and neutral items both get 1. */
  lemma PositiveSentimentEffect(item: Item)
    ensures var band := EngagementBand(EngagementScore(item), EngagementComments(item));
            Importance(item, PositiveSentiment) == Importance(item, NeutralSentiment) + (if band > 0 then 1 else 0)
  {
  }

  // ------------------------------------------------------------------ summary

  /** title[:50] + "..." if len(title) > 50 else title */
  function Truncate(s: string): (r: string)
    ensures |r| <= 53
  {
    if |s| > 50 then s[..50] + Ellipsis else s
  }

  /** A title of at most 50 characters is kept; a longer one becomes its
      first 50 characters followed by the ellipsis. */
  lemma TruncateShape(s: string)
    ensures |s| <= 50 ==> Truncate(s) == s
    ensures |s| > 50 ==> |Truncate(s)| == 53 && StartsWith(Truncate(s), s[..50]) && EndsWith(Truncate(s), Ellipsis)
  {
    if |s| > 50 {
      var r := Truncate(s);
      assert r[..50] == s[..50];
      assert r[50..] == Ellipsis;
    }
  }

  /** The cleanup of an AI summary reply: strip, remove the markers, strip, truncate. */
  function CleanSummary(content: string): (r: string)
    ensures |r| <= 53
  {
    Truncate(Strip(RemoveAll(RemoveAll(Strip(content), SummaryMarker), ConclusionMarker)))
  }

  /** A reply that is already a clean short sentence is kept as it is. */
  lemma CleanSummaryKeepsCleanReply(content: string)
    requires IsStripped(content) && |content| <= 50
    requires !Contains(content, SummaryMarker) && !Contains(content, ConclusionMarker)
    ensures CleanSummary(content) == content
  {
    StripStripped(content);
    RemoveAllAbsent(content, SummaryMarker);
    RemoveAllAbsent(content, ConclusionMarker);
    StripStripped(content);
  }

  /** _generate_summary given the service's reply: the cleaned reply, or the
      truncated title when the call failed. */
  function SummaryFrom(title: string, reply: Reply): (r: string)
    ensures |r| <= 53
    ensures reply.Failure? ==> r == Truncate(title)
  {
    match reply
    case Failure => Truncate(title)
    case Text(content) => CleanSummary(content)
  }

  // --------------------------------------------------------------- key points

  predicate IsBullet(line: string) {
    StartsWith(line, "- ") || StartsWith(line, "• ")
  }

  /** What one reply line contributes: the trimmed text after its bullet, if any. */
  function PointOf(line: string): seq<string> {
    var l := Strip(line);
    if IsBullet(l) then
      var p := Strip(l[2..]);
      if p != "" then [p] else []
    else []
  }

  /** All points of the reply lines, in line order. */
  function BulletPoints(lines: seq<string>): seq<string>
    decreases |lines|
  {
    if lines == [] then []
    else BulletPoints(lines[..|lines| - 1]) + PointOf(lines[|lines| - 1])
  }

  /** p is the trimmed text after the bullet of the trimmed line. */
  predicate PointFromLine(p: string, line: string) {
    IsBullet(Strip(line)) && p == Strip(Strip(line)[2..])
  }

  lemma PointOfFromLine(line: string)
    ensures forall p :: p in PointOf(line) ==> p != "" && IsStripped(p) && PointFromLine(p, line)
  {
  }

  /** Every point is non-empty and trimmed and is the text after the bullet of
      some trimmed line. */
  lemma {:induction false} BulletPointsFromLines(lines: seq<string>)
    ensures forall p :: p in BulletPoints(lines) ==>
              p != "" && IsStripped(p) && exists j :: 0 <= j < |lines| && PointFromLine(p, lines[j])
    decreases |lines|
  {
    if lines != [] {
      var n := |lines|;
      var init := lines[..n - 1];
      BulletPointsFromLines(init);
      PointOfFromLine(lines[n - 1]);
      assert BulletPoints(lines) == BulletPoints(init) + PointOf(lines[n - 1]);
      forall p | p in BulletPoints(lines)
        ensures p != "" && IsStripped(p) && exists j :: 0 <= j < n && PointFromLine(p, lines[j])
      {
        if p in BulletPoints(init) {
          var j :| 0 <= j < n - 1 && PointFromLine(p, init[j]);
          assert init[j] == lines[j];
        } else {
          assert PointFromLine(p, lines[n - 1]);
        }
      }
    }
  }

  /** The key points of a reply: at most three, each non-empty and trimmed. */
  function KeyPointsFrom(reply: Reply): (r: seq<string>)
    ensures |r| <= 3
    ensures reply.Failure? ==> r == []
  {
    match reply
    case Failure => []
    case Text(content) => Prefix(BulletPoints(Lines(Strip(content))), 3)
  }

  lemma KeyPointsWellFormed(reply: Reply)
    ensures forall p :: p in KeyPointsFrom(reply) ==> p != "" && IsStripped(p)
  {
    if reply.Text? {
      var all := BulletPoints(Lines(Strip(reply.content)));
      BulletPointsFromLines(Lines(Strip(reply.content)));
      assert forall p :: p in Prefix(all, 3) ==> p in all;
    }
  }

  lemma BulletPointsStep(lines: seq<string>, i: nat)
    requires i < |lines|
    ensures BulletPoints(lines[..i + 1]) == BulletPoints(lines[..i]) + PointOf(lines[i])
  {
    assert lines[..i + 1][..i] == lines[..i];
  }

  /** The loop of _extract_key_points over the lines of the stripped reply. */
  method ParseKeyPoints(result: string) returns (points: seq<string>)
    ensures points == Prefix(BulletPoints(Lines(result)), 3)
    ensures |points| <= 3
  {
    var lines := Lines(result);
    var keyPoints: seq<string> := [];
    for i := 0 to |lines|
      invariant keyPoints == BulletPoints(lines[..i])
    {
      BulletPointsStep(lines, i);
      var line := Strip(lines[i]);
      if IsBullet(line) {
        var point := Strip(line[2..]);
        if point != "" {
          keyPoints := keyPoints + [point];
        } else {
          AppendEmpty(keyPoints);
        }
      } else {
        AppendEmpty(keyPoints);
      }
    }
    WholeSlice(lines);
    points := Prefix(keyPoints, 3);
  }

  // ------------------------------------------------------- whole-item analysis

  /** The two requests _analyze_single sends for an item. */
  function SummaryRequest(item: Item): Prompt {
    var title := TitleKey(item);
    SummaryPrompt(title, Prefix(item.rawText.GetOr(title), 500))
  }

  function KeyPointsRequest(item: Item): Prompt {
    var title := TitleKey(item);
    KeyPointsPrompt(title, Prefix(item.rawText.GetOr(title), 800))
  }

  /** The analysis _analyze_single builds from the two replies. */
  function AiAnalysis(categories: seq<Category>, item: Item, summaryReply: Reply, keyPointsReply: Reply): (a: Analysis)
    ensures a.category.Some? && a.importance.Some? && 1 <= a.importance.value <= 4
    ensures |a.summary| <= 53 && |a.keyPoints| <= 3
  {
    var title := TitleKey(item);
    var rawText := item.rawText.GetOr(title);
    var sentiment := AnalyzeSentiment(rawText);
    Analysis(
      Some(Classify(categories, rawText)),
      SummaryFrom(title, summaryReply),
      KeyPointsFrom(keyPointsReply),
      sentiment,
      Some(Importance(item, sentiment)))
  }

  /** _simple_analyze_single: keyword category, the first 50 title characters
      followed by "..." whatever the title's length, no key points, neutral
      sentiment and importance 1. */
  function SimpleAnalysis(categories: seq<Category>, item: Item): (a: Analysis)
    ensures a.keyPoints == [] && a.sentiment == NeutralSentiment && a.importance == Some(1)
  {
    Analysis(
      Some(Classify(categories, item.rawText.GetOr(""))),
      Prefix(TitleKey(item), 50) + Ellipsis,
      [],
      NeutralSentiment,
      Some(1))
  }

  /** The simplified summary is at most the first 50 title characters, then
      the ellipsis, even when the title is shorter than that; the category
      is the keyword classification of the raw text. */
  lemma SimpleAnalysisShape(categories: seq<Category>, item: Item)
    ensures var a := SimpleAnalysis(categories, item);
            && a.category == Some(Classify(categories, item.rawText.GetOr("")))
            && |a.summary| == (if |TitleKey(item)| <= 50 then |TitleKey(item)| else 50) + 3
            && StartsWith(TitleKey(item), a.summary[..|a.summary| - 3])
            && EndsWith(a.summary, Ellipsis)
  {
    var a := SimpleAnalysis(categories, item);
    var p := Prefix(TitleKey(item), 50);
    assert a.summary[..|a.summary| - 3] == p;
    assert a.summary[|a.summary| - 3..] == Ellipsis;
  }

  /** The item with the simplified analysis attached. */
  function Simplified(categories: seq<Category>, item: Item): Item {
    item.(analysis := Some(SimpleAnalysis(categories, item)))
  }

  /** The i-th item of analyze_batch with a client, whose requests are calls k
      and k + 1: the AI analysis, or the simplified one when the AI path raised. */
  function AnalyzedWith(categories: seq<Category>, item: Item, raised: bool, replies: seq<Reply>, k: nat): Item {
    if raised then Simplified(categories, item)
    else item.(analysis := Some(AiAnalysis(categories, item, ReplyAt(replies, k), ReplyAt(replies, k + 1))))
  }

  /** The requests analyze_batch makes for a list of items, with a client. */
  function BatchRequests(items: seq<Item>): seq<Prompt>
    decreases |items|
  {
    if items == [] then []
    else BatchRequests(items[..|items| - 1]) + [SummaryRequest(items[|items| - 1]), KeyPointsRequest(items[|items| - 1])]
  }

  lemma {:induction false} BatchRequestsLength(items: seq<Item>)
    ensures |BatchRequests(items)| == 2 * |items|
    decreases |items|
  {
    if items != [] {
      BatchRequestsLength(items[..|items| - 1]);
    }
  }

  /** Item i is the subject of requests 2i and 2i + 1: a summary request, then
      a key-point request. */
  lemma {:induction false} BatchRequestsOrder(items: seq<Item>)
    ensures |BatchRequests(items)| == 2 * |items|
    ensures forall i :: 0 <= i < |items| ==>
              BatchRequests(items)[2 * i] == SummaryRequest(items[i]) &&
              BatchRequests(items)[2 * i + 1] == KeyPointsRequest(items[i])
    decreases |items|
  {
    if items != [] {
      var n := |items|;
      var init := items[..n - 1];
      var last := [SummaryRequest(items[n - 1]), KeyPointsRequest(items[n - 1])];
      BatchRequestsOrder(init);
      assert BatchRequests(items) == BatchRequests(init) + last;
      forall i | 0 <= i < n - 1
        ensures BatchRequests(items)[2 * i] == SummaryRequest(items[i])
        ensures BatchRequests(items)[2 * i + 1] == KeyPointsRequest(items[i])
      {
        assert init[i] == items[i];
      }
    }
  }

  /** Item i of analyze_batch with a client, when its first request is call
      number base of the run: analysed with the replies to calls base + 2i
      and base + 2i + 1. */
  function BatchItem(categories: seq<Category>, items: seq<Item>, faulty: set<Item>,
                     replies: seq<Reply>, base: nat, i: nat): Item
    requires i < |items|
  {
    AnalyzedWith(categories, items[i], items[i] in faulty, replies, base + 2 * i)
  }

  /** The items analyze_batch returns with a client. */
  function BatchResult(categories: seq<Category>, items: seq<Item>, faulty: set<Item>,
                       replies: seq<Reply>, base: nat): seq<Item>
  {
    seq(|items|, i requires 0 <= i < |items| => BatchItem(categories, items, faulty, replies, base, i))
  }

  lemma BatchResultAt(categories: seq<Category>, items: seq<Item>, faulty: set<Item>,
                      replies: seq<Reply>, base: nat, i: nat)
    requires i < |items|
    ensures BatchResult(categories, items, faulty, replies, base)[i] == BatchItem(categories, items, faulty, replies, base, i)
  {
  }

  lemma AnalyzedIsBatchItem(categories: seq<Category>, items: seq<Item>, faulty: set<Item>,
                            replies: seq<Reply>, base: nat, i: nat, k: nat, result: Item)
    requires i < |items| && k == base + 2 * i
    requires result == AnalyzedWith(categories, items[i], items[i] in faulty, replies, k)
    ensures result == BatchItem(categories, items, faulty, replies, base, i)
  {
  }

  lemma BatchRequestsStep(items: seq<Item>, i: nat)
    requires i < |items|
    ensures BatchRequests(items[..i + 1]) == BatchRequests(items[..i]) + [SummaryRequest(items[i]), KeyPointsRequest(items[i])]
  {
    assert items[..i + 1][..i] == items[..i];
  }

  /** The analyser: its categories and the client chosen at construction.
      `faulty` holds the items on which _analyze_single raises
      (a malformed engagement value, say); the typed items of this model cannot
      express such values, so it is a parameter. */
  class Analyzer {
    const categories: seq<Category>
    var client: Client

    constructor (categories: seq<Category>, env: Env, builds: ProviderKind -> bool)
      ensures this.categories == categories && client == SelectClient(env, builds)
    {
      this.categories := categories;
      client := NoClient;
      new;
      InitClient(env, builds);
    }

    /** _init_client: the proxy first, then SiliconFlow, then no client. */
    method InitClient(env: Env, builds: ProviderKind -> bool)
      modifies this
      ensures client == SelectClient(env, builds)
    {
      if Truthy(env.proxyKey) && Truthy(env.proxyBase) {
        if builds(OpenAIProxy) {
          client := Client(OpenAIProxy, env.proxyModel.GetOr(DefaultProxyModel));
          return;
        }
      }
      if Truthy(env.siliconflowKey) {
        if builds(SiliconFlow) {
          client := Client(SiliconFlow, env.siliconflowModel.GetOr(DefaultSiliconflowModel));
          return;
        }
      }
      client := NoClient;
    }

    /** _generate_summary: without a client the truncated title and no call. */
    method GenerateSummary(title: string, content: string, llm: Service) returns (summary: string)
      modifies llm
      ensures client.NoClient? ==> summary == Truncate(title) && llm.log == old(llm.log)
      ensures client.Client? ==>
                llm.log == old(llm.log) + [SummaryPrompt(title, Prefix(content, 500))] &&
                summary == SummaryFrom(title, ReplyAt(llm.replies, |old(llm.log)|))
    {
      if client.NoClient? {
        return Truncate(title);
      }
      var reply := llm.Complete(SummaryPrompt(title, Prefix(content, 500)));
      summary := SummaryFrom(title, reply);
    }

    /** _extract_key_points: without a client no points and no call. */
    method ExtractKeyPoints(title: string, content: string, llm: Service) returns (points: seq<string>)
      modifies llm
      ensures client.NoClient? ==> points == [] && llm.log == old(llm.log)
      ensures client.Client? ==>
                llm.log == old(llm.log) + [KeyPointsPrompt(title, Prefix(content, 800))] &&
                points == KeyPointsFrom(ReplyAt(llm.replies, |old(llm.log)|))
    {
      if client.NoClient? {
        return [];
      }
      var reply := llm.Complete(KeyPointsPrompt(title, Prefix(content, 800)));
      if reply.Failure? {
        return [];
      }
      points := ParseKeyPoints(Strip(reply.content));
    }

    /** The two service calls of _analyze_single. */
    method RequestAnalysis(item: Item, llm: Service) returns (summary: string, keyPoints: seq<string>)
      requires client.Client?
      modifies llm
      ensures llm.log == old(llm.log) + [SummaryRequest(item), KeyPointsRequest(item)]
      ensures summary == SummaryFrom(TitleKey(item), ReplyAt(llm.replies, |old(llm.log)|))
      ensures keyPoints == KeyPointsFrom(ReplyAt(llm.replies, |old(llm.log)| + 1))
    {
      var title := TitleKey(item);
      var rawText := item.rawText.GetOr(title);
      ghost var log0 := llm.log;
      summary := GenerateSummary(title, rawText, llm);
      ghost var log1 := llm.log;
      keyPoints := ExtractKeyPoints(title, rawText, llm);
      AppendTwo(log0, SummaryRequest(item), KeyPointsRequest(item));
      assert |log1| == |log0| + 1;
    }

    /** _analyze_single: None when it raised (after both requests). */
    method AnalyzeSingle(item: Item, llm: Service, raised: bool) returns (r: Option<Item>)
      requires client.Client?
      modifies llm
      ensures llm.log == old(llm.log) + [SummaryRequest(item), KeyPointsRequest(item)]
      ensures raised ==> r.None?
      ensures !raised ==> r == Some(AnalyzedWith(categories, item, false, llm.replies, |old(llm.log)|))
    {
      var title := TitleKey(item);
      var rawText := item.rawText.GetOr(title);
      var category := Classify(categories, rawText);
      var summary, keyPoints := RequestAnalysis(item, llm);
      var sentiment := AnalyzeSentiment(rawText);
      if raised {
        return None;
      }
      var importance := Importance(item, sentiment);
      r := Some(item.(analysis := Some(Analysis(Some(category), summary, keyPoints, sentiment, Some(importance)))));
    }

    /** One step of analyze_batch's loop: _analyze_single, or the simplified
        analysis of the item when that raised. */
    method AnalyzeGuarded(item: Item, llm: Service, raised: bool) returns (result: Item)
      requires client.Client?
      modifies llm
      ensures llm.log == old(llm.log) + [SummaryRequest(item), KeyPointsRequest(item)]
      ensures result == AnalyzedWith(categories, item, raised, llm.replies, |old(llm.log)|)
    {
      var r := AnalyzeSingle(item, llm, raised);
      if r.Some? {
        result := r.value;
      } else {
        result := Simplified(categories, item);
      }
    }

    /** _simple_analyze: every element of the list is analysed in place. */
    method SimpleAnalyze(items: array<Item>)
      modifies items
      ensures forall i :: 0 <= i < items.Length ==>
                items[i] == Simplified(categories, old(items[i]))
    {
      for i := 0 to items.Length
        invariant forall j :: 0 <= j < i ==> items[j] == Simplified(categories, old(items[j]))
        invariant forall j :: i <= j < items.Length ==> items[j] == old(items[j])
      {
        SimplifyAt(items, i);
      }
    }

    /** One iteration of _simple_analyze's loop: item i gets the simplified analysis. */
    method SimplifyAt(items: array<Item>, i: nat)
      requires i < items.Length
      modifies items
      ensures items[i] == Simplified(categories, old(items[i]))
      ensures forall j :: 0 <= j < items.Length && j != i ==> items[j] == old(items[j])
    {
      items[i] := items[i].(analysis := Some(SimpleAnalysis(categories, items[i])));
    }

    /** One iteration of analyze_batch's loop with a client: item i is
        analysed, with requests 2i and 2i + 1 of the batch, and replaced. */
    method AnalyzeNext(items: array<Item>, llm: Service, faulty: set<Item>, i: nat,
                       ghost original: seq<Item>, ghost base: nat) returns (result: Item)
      requires client.Client? && i < items.Length == |original|
      requires items[..] == BatchResult(categories, original, faulty, llm.replies, base)[..i] + original[i..]
      requires |llm.log| == base + 2 * i
      modifies items, llm
      ensures result == BatchResult(categories, original, faulty, llm.replies, base)[i]
      ensures items[..] == BatchResult(categories, original, faulty, llm.replies, base)[..i + 1] + original[i + 1..]
      ensures llm.log == old(llm.log) + [SummaryRequest(original[i]), KeyPointsRequest(original[i])]
    {
      ghost var all := BatchResult(categories, original, faulty, llm.replies, base);
      ghost var before := items[..];
      PrefixStep(original, i);
      PrefixStep(all, i);
      BatchResultAt(categories, original, faulty, llm.replies, base, i);
      var item := items[i];
      assert item == original[i];
      ghost var k := |llm.log|;
      result := AnalyzeGuarded(item, llm, item in faulty);
      AnalyzedIsBatchItem(categories, original, faulty, llm.replies, base, i, k, result);
      UpdateStep(before, all[..i], original[i..], result);
      items[i] := result;
      assert items[..] == before[i := result];
    }

    /** analyze_batch: one analysed item per input, in input order, each item
        updated in place. Without a client every item gets the simplified
        analysis and no request is made; with one, item i makes requests 2i and
        2i + 1 and falls back to the simplified analysis alone when it raises. */
    method AnalyzeBatch(items: array<Item>, llm: Service, faulty: set<Item>) returns (analyzed: seq<Item>)
      modifies items, llm
      ensures analyzed == items[..]
      ensures client.NoClient? ==> llm.log == old(llm.log)
      ensures client.NoClient? ==> forall i :: 0 <= i < items.Length ==>
                items[i] == Simplified(categories, old(items[i]))
      ensures client.Client? ==> llm.log == old(llm.log) + BatchRequests(old(items[..]))
      ensures client.Client? ==> analyzed == BatchResult(categories, old(items[..]), faulty, llm.replies, |old(llm.log)|)
    {
      if client.NoClient? {
        SimpleAnalyze(items);
        return items[..];
      }
      ghost var base := |llm.log|;
      ghost var original := items[..];
      ghost var all := BatchResult(categories, original, faulty, llm.replies, base);
      analyzed := [];
      for i := 0 to items.Length
        invariant llm.log == old(llm.log) + BatchRequests(original[..i])
        invariant analyzed == all[..i]
        invariant items[..] == analyzed + original[i..]
      {
        BatchRequestsLength(original[..i]);
        BatchRequestsStep(original, i);
        AppendAssoc(old(llm.log), BatchRequests(original[..i]), [SummaryRequest(original[i]), KeyPointsRequest(original[i])]);
        PrefixStep(all, i);
        var result := AnalyzeNext(items, llm, faulty, i, original, base);
        analyzed := analyzed + [result];
      }
      assert original[..items.Length] == original;
      assert all[..items.Length] == all;
      assert original[items.Length..] == [];
    }
  }
}
