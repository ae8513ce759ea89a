/** The daily run (scripts/run_collection.py): collect the posts, stop when
    there are none, otherwise analyse every post, pick the ten with the most
    engagement, generate ideas for those ten, and export the report. */
module RunCollection {
  import opened Records
  import opened Llm
  import Ranking
  import RedditCollector
  import AiAnalyzer
  import AiIdeaGenerator
  import HtmlExporter
  import Seqs

  const TopCount: nat := 10
  const LookbackHours: int := 24

  /** score + 2 * comments, each 0 when absent. */
  function EngagementKey(item: Item): int {
    EngagementScore(item) + 2 * EngagementComments(item)
  }

  /** get_top10: sorted by engagement, descending and stable, cut to ten. */
  function GetTop10(items: seq<Item>): seq<Item> {
    Ranking.Top(items, EngagementKey, TopCount)
  }

  /** min(10, |items|) items, in non-increasing engagement, drawn from the
      input, equal-engagement items in input order, and no item left out more
      engaging than one selected. */
  lemma GetTop10Properties(items: seq<Item>)
    ensures |GetTop10(items)| == if |items| <= TopCount then |items| else TopCount
    ensures Ranking.NonIncreasing(GetTop10(items), EngagementKey)
    ensures multiset(GetTop10(items)) <= multiset(items)
    ensures forall k :: Ranking.StartsWithSeq(Ranking.WithKey(items, EngagementKey, k),
                                              Ranking.WithKey(GetTop10(items), EngagementKey, k))
    ensures forall x, y :: x in multiset(items) - multiset(GetTop10(items)) && y in GetTop10(items) ==>
              EngagementKey(x) <= EngagementKey(y)
  {
    Ranking.TopProperties(items, EngagementKey, TopCount);
  }

  /** An item without engagement data ranks as 0. */
  lemma EngagementKeyMissing(item: Item)
    requires item.engagement.None?
    ensures EngagementKey(item) == 0
  {
  }

  /** How a run ends: nothing collected, or the report written at path from
      the analysed posts, the top ten and their ideas. */
  datatype Outcome =
    | NoItems
    | Exported(path: string, analyzed: seq<Item>, top10: seq<Item>, ideas: map<string, seq<Idea>>)

  /** The requests analyze_batch sends for the items. */
  function AnalysisCalls(client: Client, items: seq<Item>): seq<Prompt> {
    if client.Client? then AiAnalyzer.BatchRequests(items) else []
  }

  /** The requests generate_for_top10 sends for the top ten. */
  function IdeaCalls(client: Client, top10: seq<Item>): seq<Prompt> {
    if client.Client? then AiIdeaGenerator.IdeaRequests(top10) else []
  }

  /** Step 2 of main: an analyser configured from the environment analyses
      every collected post. */
  method AnalyzeAll(items: seq<Item>, categories: seq<Category>, env: Env, builds: ProviderKind -> bool,
                    llm: Service, faulty: set<Item>) returns (analyzed: seq<Item>)
    modifies llm
    ensures |analyzed| == |items|
    ensures SelectClient(env, builds).NoClient? ==>
              forall i :: 0 <= i < |items| ==> analyzed[i] == AiAnalyzer.Simplified(categories, items[i])
    ensures SelectClient(env, builds).Client? ==>
              analyzed == AiAnalyzer.BatchResult(categories, items, faulty, llm.replies, |old(llm.log)|)
    ensures llm.log == old(llm.log) + AnalysisCalls(SelectClient(env, builds), items)
  {
    var analyzer := new AiAnalyzer.Analyzer(categories, env, builds);
    var buffer := new Item[|items|](i requires 0 <= i < |items| => items[i]);
    assert buffer[..] == items;
    analyzed := analyzer.AnalyzeBatch(buffer, llm, faulty);
    if analyzer.client.NoClient? {
      Seqs.AppendEmpty(old(llm.log));
    }
  }

  /** Steps 2 to 4 of main on the collected posts: analyse them all, pick
      the top ten of the analysed posts, generate ideas for those ten only,
      and export all analysed posts with the top ten and the ideas. */
  method Process(items: seq<Item>, categories: seq<Category>, env: Env, builds: ProviderKind -> bool,
                 llm: Service, faulty: set<Item>, parse: string -> Option<AiIdeaGenerator.Payload>,
                 exporter: HtmlExporter.Exporter, date: string)
    returns (outcome: Outcome)
    modifies llm, exporter
    ensures outcome.Exported?
    ensures Completed(outcome, items, categories, SelectClient(env, builds), faulty, llm.replies, parse,
                      old(llm.log), llm.log, exporter.outputDir, old(exporter.files), exporter.files, date)
  {
    ghost var client := SelectClient(env, builds);
    var analyzed := AnalyzeAll(items, categories, env, builds, llm, faulty);
    ghost var afterAnalysis := llm.log;
    var top10 := GetTop10(analyzed);
    var generator := new AiIdeaGenerator.IdeaGenerator(env, builds);
    var ideas := generator.GenerateForTop10(top10, llm, parse);
    ghost var afterIdeas := llm.log;
    var path := exporter.Export(analyzed, Some(top10), Some(ideas), date);
    outcome := Exported(path, analyzed, top10, ideas);
    CompletedIntro(outcome, items, categories, client, faulty, llm.replies, parse,
                   old(llm.log), afterAnalysis, afterIdeas, exporter.outputDir, old(exporter.files), exporter.files, date);
  }

  lemma CompletedIntro(outcome: Outcome, items: seq<Item>, categories: seq<Category>, client: Client,
                       faulty: set<Item>, replies: seq<Reply>, parse: string -> Option<AiIdeaGenerator.Payload>,
                       logBefore: seq<Prompt>, logMid: seq<Prompt>, logAfter: seq<Prompt>, outputDir: string,
                       filesBefore: map<string, HtmlExporter.Report>, filesAfter: map<string, HtmlExporter.Report>,
                       date: string)
    requires outcome.Exported?
    requires |outcome.analyzed| == |items|
    requires client.NoClient? ==> forall i :: 0 <= i < |items| ==>
               outcome.analyzed[i] == AiAnalyzer.Simplified(categories, items[i])
    requires client.Client? ==>
               outcome.analyzed == AiAnalyzer.BatchResult(categories, items, faulty, replies, |logBefore|)
    requires logMid == logBefore + AnalysisCalls(client, items)
    requires outcome.top10 == GetTop10(outcome.analyzed)
    requires client.NoClient? ==> logAfter == logMid
    requires client.Client? ==> logAfter == logMid + AiIdeaGenerator.IdeaRequests(outcome.top10)
    requires outcome.ideas == AiIdeaGenerator.IdeaMap(client, outcome.top10, replies, |logMid|, parse)
    requires outcome.path == outputDir + "/" + date + ".html"
    requires HtmlExporter.Categorized(outcome.analyzed).Valid()
    requires filesAfter == filesBefore[outcome.path :=
               HtmlExporter.ReportOf(outcome.analyzed, HtmlExporter.Categorized(outcome.analyzed),
                                     outcome.top10, outcome.ideas, date)]
    ensures Completed(outcome, items, categories, client, faulty, replies, parse,
                      logBefore, logAfter, outputDir, filesBefore, filesAfter, date)
  {
    if client.NoClient? {
      Seqs.AppendEmpty(logMid);
    }
  }

  /** What a run that collected items has done, given the service's log and
      the exported pages before and after. */
  ghost predicate Completed(outcome: Outcome, items: seq<Item>, categories: seq<Category>, client: Client,
                            faulty: set<Item>, replies: seq<Reply>, parse: string -> Option<AiIdeaGenerator.Payload>,
                            logBefore: seq<Prompt>, logAfter: seq<Prompt>, outputDir: string,
                            filesBefore: map<string, HtmlExporter.Report>, filesAfter: map<string, HtmlExporter.Report>,
                            date: string)
  {
    && outcome.Exported?
    && |outcome.analyzed| == |items|
    && (client.NoClient? ==> forall i :: 0 <= i < |items| ==>
          outcome.analyzed[i] == AiAnalyzer.Simplified(categories, items[i]))
    && (client.Client? ==>
          outcome.analyzed == AiAnalyzer.BatchResult(categories, items, faulty, replies, |logBefore|))
    && outcome.top10 == GetTop10(outcome.analyzed)
    && outcome.ideas == AiIdeaGenerator.IdeaMap(client, outcome.top10, replies,
                          |logBefore + AnalysisCalls(client, items)|, parse)
    && logAfter == logBefore + AnalysisCalls(client, items) + IdeaCalls(client, outcome.top10)
    && outcome.path == outputDir + "/" + date + ".html"
    && HtmlExporter.Categorized(outcome.analyzed).Valid()
    && filesAfter == filesBefore[outcome.path :=
         HtmlExporter.ReportOf(outcome.analyzed, HtmlExporter.Categorized(outcome.analyzed),
                               outcome.top10, outcome.ideas, date)]
  }

  /** main: the four steps in order, with the early return when the
      collection is empty. The configuration is given as the collector, the
      categories and the environment; the clock as now and date. */
  method Run(collector: RedditCollector.Collector, categories: seq<Category>, env: Env,
             builds: ProviderKind -> bool, now: int, feeds: string -> RedditCollector.Feed,
             llm: Service, faulty: set<Item>, parse: string -> Option<AiIdeaGenerator.Payload>,
             exporter: HtmlExporter.Exporter, date: string)
    returns (outcome: Outcome)
    modifies llm, exporter
    ensures var items := RedditCollector.AllPosts(collector.subreddits, feeds, now - LookbackHours * 3600);
            && (outcome.NoItems? <==> items == [])
            && (outcome.NoItems? ==> llm.log == old(llm.log) && exporter.files == old(exporter.files))
            && (outcome.Exported? ==>
                  Completed(outcome, items, categories, SelectClient(env, builds), faulty, llm.replies, parse,
                            old(llm.log), llm.log, exporter.outputDir, old(exporter.files), exporter.files, date))
  {
    var items := collector.Collect(LookbackHours, now, feeds);
    if items == [] {
      return NoItems;
    }
    outcome := Process(items, categories, env, builds, llm, faulty, parse, exporter, date);
  }
}
