# ai-hotspots-daily, modelled in Dafny

ai-hotspots-daily is a daily pipeline with four steps:

1. It collects the last 24 hours of posts from a list of subreddit RSS feeds.
2. It analyses every post: a keyword category, a keyword sentiment, an
   engagement-banded importance, and an AI summary and key points when a
   language-model client is configured.
3. It ranks the analysed posts by engagement, keeps the top ten, and asks the
   model for product ideas about each of them. Fixed fallback ideas are used
   whenever there is no client or anything fails.
4. It exports one HTML report per date: counters, ranked cards with the
   ideas, and the posts grouped by category.

The model follows the program file by file:

| Dafny module | file | form |
|---|---|---|
| `RedditCollector` | `collector.dfy` | class `Collector` with the two collection loops, proved against `AllPosts` / `RssPosts`; pure entry normalisation and the `(\d+) points?` scan |
| `AiAnalyzer` | `analyzer.dfy` | class `Analyzer` whose batch analysis updates an `array<Item>` in place; pure classification, sentiment, importance, summary and key-point functions |
| `AiIdeaGenerator` | `idea_generator.dfy` | class `IdeaGenerator` with the per-hotspot request and the top-ten loop filling a title map; pure fence stripping, formatting and fallback |
| `HtmlExporter` | `html_exporter.dfy` | class `Exporter` whose `files` map holds the exported pages; categorisation and page assembly as loops proved against pure specifications |
| `RunCollection` | `run_collection.dfy` | the `main` sequence as a method; `get_top10` as a function |
| `Records`, `Llm`, `Text`, `Ranking`, `Seqs` | shared | item and idea records; the language-model service as an object that logs requests and answers from a fixed reply list; Python string operations; stable descending sort; generic sequence lemmas |

The outside world enters as parameters:

- **Language-model service.** It is a `Llm.Service` object. It records every
  request in `log`, and the k-th request gets `replies[k]`. A missing reply
  is `Failure`, which stands for any exception raised by the call.
- **Client construction.** `builds` says whether constructing each
  provider's client succeeds, and `Env` holds the environment variables.
- **RSS feeds.** `feeds` maps a subreddit to its parsed feed, or to a fetch
  error.
- **JSON decoding.** `parse` decodes the ideas reply. `None` stands for any
  decoding or shape error.
- **Analysis failures.** `faulty` is the set of items whose `_analyze_single`
  raises.
- **Clock.** `now` is the time as epoch seconds, and `date` is the report
  date.

The end-to-end contract is `RunCollection.Run`. Given its inputs, it states:

- which posts are collected;
- that the run stops without any request or file when there are none;
- otherwise, each analysed item;
- the top ten;
- the ideas map;
- the exact sequence of model requests;
- the report stored under `<outputDir>/<date>.html`.

## Where the code and its description differ

The model follows the code in these places:

- **Simplified summary.** `_simple_analyze_single` always appends `"..."`
  to the first 50 characters of the title, even when the title is shorter.
  Only `_generate_summary` truncates conditionally.
- **Analysis without a client.** Every item then gets importance 1 and a
  neutral sentiment, whatever its engagement. The bands apply only to items
  analysed by `_analyze_single`.
- **Failed analysis of one item.** Both model requests of that item are
  still made before it falls back to the simplified analysis. The model
  places the exception after both calls.
- **Ideas map keys.** Ideas are stored and looked up under
  `item.get('title', '')`. A hotspot without a title therefore writes and
  reads the key `""`. Of two hotspots with the same title, the later one's
  ideas are shown on both cards.
- **`min_score`.** It is read from the configuration but never filters
  anything.

## Model

| member | source | states |
|---|---|---|
| `Llm.SelectClient` | src/processors/ai_analyzer.py:21-58 | the proxy client exactly when its key and base URL are non-empty and its construction succeeds; otherwise SiliconFlow exactly when its key is non-empty and construction succeeds; otherwise no client; each with its model variable or default model name |
| `Llm.Service.Complete` | src/processors/ai_analyzer.py:125-131 | one request is appended to the log and answered with the reply of that call number |
| `RedditCollector.RunEnd` | src/collectors/reddit_collector.py:88-89 | the end of the maximal digit run starting at a position |
| `RedditCollector.ScanFromFindsFirst` | src/collectors/reddit_collector.py:88-94 | scanning from a run boundary yields the number of the leftmost `(\d+) unit` match, or 0 when there is none |
| `RedditCollector.CountInFirstMatch` | src/collectors/reddit_collector.py:88-94 | the extracted score or comment count is the value of the leftmost match, and 0 without a match |
| `RedditCollector.LastSegment` | src/collectors/reddit_collector.py:98 | the id is the suffix after the last `/`, contains no `/`, and is the whole id when there is no `/` |
| `RedditCollector.NormalizeEntry` | src/collectors/reddit_collector.py:73-123 | an entry is skipped as too old iff published before the cutoff, becomes a post iff it has a timestamp at or after the cutoff, a title and a link; a post carries the extracted counts in its score and engagement, the id's last `/`-segment ("" without an id), the defaults for missing author and summary, upvote ratio 0.9, source "reddit", and raw text title + " " + summary |
| `RedditCollector.RssPostsAppend` | src/collectors/reddit_collector.py:70-127 | entries are handled independently: the posts of two entry lists concatenated are the posts of each, concatenated |
| `RedditCollector.RssPostsBounds` | src/collectors/reddit_collector.py:70-127 | no more posts than entries; every post is at or after the cutoff, from that subreddit, with source "reddit" |
| `RedditCollector.AllPostsAppend` | src/collectors/reddit_collector.py:39-54 | subreddits are handled independently and their posts concatenated in configured order |
| `RedditCollector.FailingSubredditSkipped` | src/collectors/reddit_collector.py:52-54 | a subreddit whose feed fails contributes nothing and does not disturb the others |
| `RedditCollector.Collector.constructor` | src/collectors/reddit_collector.py:22 | the collector keeps the configured subreddits and minimum score |
| `RedditCollector.Collector.CollectViaRss` | src/collectors/reddit_collector.py:59-132 | the loop collects exactly the posts of the feed's entries in order, none for a failed fetch |
| `RedditCollector.Collector.Collect` | src/collectors/reddit_collector.py:36-57 | the cutoff is now minus the look-back hours; the result is the posts of every subreddit in configured order |
| `AiAnalyzer.CountPresentDistinct` | src/processors/ai_analyzer.py:189-190 | with distinct words the count is the number of listed words occurring in the text |
| `AiAnalyzer.SentimentCountsDistinctWords` | src/processors/ai_analyzer.py:186-190 | both sentiment counts are numbers of distinct listed words present, not occurrences |
| `AiAnalyzer.AnalyzeSentiment` | src/processors/ai_analyzer.py:181-197 | positive iff more positive than negative words occur, negative iff more negative, neutral otherwise, each with its emoji |
| `AiAnalyzer.FirstMatching` | src/processors/ai_analyzer.py:203-207 | the index of the first category with a keyword in the text, no earlier category matching |
| `AiAnalyzer.Classify` | src/processors/ai_analyzer.py:199-209 | the first category in list order having a keyword in the lowered text; with no match the first category, or "AI 相关" when there are no categories |
| `AiAnalyzer.EngagementBand` | src/processors/ai_analyzer.py:220-225 | band 3 iff score > 1000 or comments > 500, at least 2 iff > 500 or > 200, at least 1 iff > 100 or > 50 |
| `AiAnalyzer.Importance` | src/processors/ai_analyzer.py:211-231 | importance is the engagement band (3, 2, 1 or 0) plus 1 for a positive sentiment, and 1 when that sum is 0; hence it lies in 1..4 and is at least the band |
| `AiAnalyzer.ImportanceMonotone` | src/processors/ai_analyzer.py:216-225 | more score and comments never lower importance |
| `AiAnalyzer.PositiveSentimentEffect` | src/processors/ai_analyzer.py:227-231 | positive sentiment adds one point exactly when some band is reached |
| `AiAnalyzer.Truncate` | src/processors/ai_analyzer.py:115 | at most 53 characters |
| `AiAnalyzer.TruncateShape` | src/processors/ai_analyzer.py:115 | a title of at most 50 characters is kept; a longer one becomes its first 50 characters and "..." |
| `AiAnalyzer.CleanSummary` | src/processors/ai_analyzer.py:131-136 | the cleaned summary has at most 53 characters |
| `AiAnalyzer.CleanSummaryKeepsCleanReply` | src/processors/ai_analyzer.py:131-136 | a trimmed reply of at most 50 characters without the markers is returned unchanged |
| `AiAnalyzer.SummaryFrom` | src/processors/ai_analyzer.py:125-140 | at most 53 characters; a failed call gives the truncated title |
| `AiAnalyzer.PointOfFromLine` | src/processors/ai_analyzer.py:169-173 | a line contributes only a non-empty trimmed text that follows its bullet |
| `AiAnalyzer.BulletPointsFromLines` | src/processors/ai_analyzer.py:168-173 | every point is non-empty, trimmed, and the text after the bullet of some reply line |
| `AiAnalyzer.KeyPointsFrom` | src/processors/ai_analyzer.py:160-179 | at most three points, none after a failed call |
| `AiAnalyzer.KeyPointsWellFormed` | src/processors/ai_analyzer.py:168-175 | every key point is non-empty and trimmed |
| `AiAnalyzer.ParseKeyPoints` | src/processors/ai_analyzer.py:166-175 | the loop keeps the first three bullet points of the reply lines in order |
| `AiAnalyzer.AiAnalysis` | src/processors/ai_analyzer.py:82-110 | an AI analysis always has a category and an importance in 1..4, a summary of at most 53 characters and at most three key points |
| `AiAnalyzer.SimpleAnalysis` | src/processors/ai_analyzer.py:239-248 | no key points, neutral sentiment, importance 1 |
| `AiAnalyzer.SimpleAnalysisShape` | src/processors/ai_analyzer.py:239-248 | the keyword category of the raw text, and a summary made of the title's first 50 characters followed by "..." for every title length |
| `AiAnalyzer.BatchRequestsLength` | src/processors/ai_analyzer.py:69-80 | two requests per item |
| `AiAnalyzer.BatchRequestsOrder` | src/processors/ai_analyzer.py:69-80 | item i is the subject of requests 2i (summary) and 2i+1 (key points) |
| `AiAnalyzer.Analyzer.constructor` | src/processors/ai_analyzer.py:13-19 | the analyser keeps the categories and selects its client by the provider priority |
| `AiAnalyzer.Analyzer.InitClient` | src/processors/ai_analyzer.py:21-58 | the client chosen is the one of the priority rule |
| `AiAnalyzer.Analyzer.GenerateSummary` | src/processors/ai_analyzer.py:112-140 | without a client the truncated title and no request; with one, one summary request and the summary of its reply |
| `AiAnalyzer.Analyzer.ExtractKeyPoints` | src/processors/ai_analyzer.py:142-179 | without a client no points and no request; with one, one key-point request and the points of its reply |
| `AiAnalyzer.Analyzer.RequestAnalysis` | src/processors/ai_analyzer.py:91-94 | a summary request then a key-point request, with the results of their replies |
| `AiAnalyzer.Analyzer.AnalyzeSingle` | src/processors/ai_analyzer.py:82-110 | both requests are made; a raising item gives nothing, any other the item with its AI analysis |
| `AiAnalyzer.Analyzer.AnalyzeGuarded` | src/processors/ai_analyzer.py:70-78 | one loop step: the AI analysis, or the simplified analysis when it raised, after both requests |
| `AiAnalyzer.Analyzer.SimpleAnalyze` | src/processors/ai_analyzer.py:233-237 | every element of the list gets the simplified analysis in place |
| `AiAnalyzer.Analyzer.SimplifyAt` | src/processors/ai_analyzer.py:236 | element i gets the simplified analysis and no other element changes |
| `AiAnalyzer.Analyzer.AnalyzeNext` | src/processors/ai_analyzer.py:69-78 | one step of the loop: item i becomes its batch result, later items are untouched, two requests are logged |
| `AiAnalyzer.Analyzer.AnalyzeBatch` | src/processors/ai_analyzer.py:60-80 | without a client no request and every item simplified; with one, two requests per item in order and each item analysed from its own two replies, or simplified when it raised |
| `AiIdeaGenerator.FallbackIdeasShape` | src/processors/ai_idea_generator.py:149-169 | two ideas scored 75 and 70, four features each, distinct names starting with the category ("AI 相关" without an analysis) |
| `AiIdeaGenerator.FallbackIgnoresTitle` | src/processors/ai_idea_generator.py:149-169 | the fallback depends only on the category |
| `AiIdeaGenerator.FenceStripped` | src/processors/ai_idea_generator.py:107-114 | the cleaned reply is trimmed |
| `AiIdeaGenerator.FenceStrippedPlain` | src/processors/ai_idea_generator.py:107-114 | a reply without fences is only trimmed |
| `AiIdeaGenerator.FenceStrippedClean` | src/processors/ai_idea_generator.py:107-114 | a trimmed reply without fences is unchanged |
| `AiIdeaGenerator.FenceStrippedBlock` | src/processors/ai_idea_generator.py:107-114 | a "```json" block closed by "```" gives its trimmed body |
| `AiIdeaGenerator.StripFence` | src/processors/ai_idea_generator.py:107-114 | the step-by-step cleanup computes the fence-stripped reply |
| `AiIdeaGenerator.NormalizeDefaults` | src/processors/ai_idea_generator.py:122-128 | missing keys take "未命名", "", [], "" and 80, present name, description, target users and score are kept; features are the leading at most four of the given ones, all of them when there are at most four |
| `AiIdeaGenerator.FormatAllAt` | src/processors/ai_idea_generator.py:120-128 | one formatted idea per raw idea, in order |
| `AiIdeaGenerator.FormatIdeas` | src/processors/ai_idea_generator.py:120-128 | the loop formats exactly the first max raw ideas |
| `AiIdeaGenerator.IdeasFromOutcome` | src/processors/ai_idea_generator.py:98-135 | a failed call or failed decoding gives the fallback; a decoded reply gives min(max_ideas, number of raw ideas) ideas, each the normalised raw idea |
| `AiIdeaGenerator.IdeasFromFeaturesCapped` | src/processors/ai_idea_generator.py:125 | every generated idea has at most four features |
| `AiIdeaGenerator.HotspotIdeasAnyCall` | src/processors/ai_idea_generator.py:62-63 | without a client the outcome does not depend on the call number |
| `AiIdeaGenerator.IdeaRequestsOrder` | src/processors/ai_idea_generator.py:142-145 | one request per hotspot, in order: request i is about hotspot i |
| `AiIdeaGenerator.TitleMapKeys` | src/processors/ai_idea_generator.py:141-147 | the keys of a title-keyed map built hotspot by hotspot are exactly the hotspots' titles |
| `AiIdeaGenerator.TitleMapLastWriter` | src/processors/ai_idea_generator.py:145 | the last hotspot with a given title determines its entry |
| `AiIdeaGenerator.IdeaMapKeys` | src/processors/ai_idea_generator.py:141-147 | the ideas map has exactly the titles of the hotspots as keys ("" for a missing title) |
| `AiIdeaGenerator.IdeaMapLastWriter` | src/processors/ai_idea_generator.py:142-145 | the entry of a title holds the ideas generated for the last hotspot with that title, from its own request |
| `AiIdeaGenerator.IdeaGenerator.constructor` | src/processors/ai_idea_generator.py:23-58 | the generator's client follows the provider priority |
| `AiIdeaGenerator.IdeaGenerator.InitClient` | src/processors/ai_idea_generator.py:23-58 | the client chosen is the one of the priority rule |
| `AiIdeaGenerator.IdeaGenerator.GenerateForHotspot` | src/processors/ai_idea_generator.py:60-135 | without a client the fallback and no request; with one, one idea request and the ideas of its reply |
| `AiIdeaGenerator.IdeaGenerator.GenerateNext` | src/processors/ai_idea_generator.py:143-145 | one loop turn stores the hotspot's ideas under its title and logs at most one request |
| `AiIdeaGenerator.IdeaGenerator.GenerateForTop10` | src/processors/ai_idea_generator.py:137-147 | one idea request per hotspot in order (none without a client); the map stores each hotspot's ideas under its title |
| `HtmlExporter.FirstSeenKeys` | src/exporters/html_exporter.py:53-60 | the categories occur once each, and are exactly the items' categories |
| `HtmlExporter.FirstSeenPrefix` | src/exporters/html_exporter.py:54-58 | categories seen early stay first, in the same order |
| `HtmlExporter.GroupMembers` | src/exporters/html_exporter.py:54-59 | a group holds exactly the items of its category |
| `HtmlExporter.GroupAppend` | src/exporters/html_exporter.py:54-59 | grouping keeps the input order |
| `HtmlExporter.TotalCovers` | src/exporters/html_exporter.py:51-60 | the group sizes over all categories sum to the number of items |
| `HtmlExporter.CategorizedPartition` | src/exporters/html_exporter.py:51-60 | every item lies in exactly the group of its category, the groups are keyed by the items' categories, and their sizes sum to the item count |
| `HtmlExporter.CategorizedDefault` | src/exporters/html_exporter.py:55-56 | an item without an analysis or category is filed under "AI 相关" |
| `HtmlExporter.RedditCount` | src/exporters/html_exporter.py:76 | the reddit count is at most the total |
| `HtmlExporter.RedditCountExtremes` | src/exporters/html_exporter.py:76 | it equals the total iff every item is from reddit, and is 0 iff none is |
| `HtmlExporter.Top10ByImportanceProperties` | src/exporters/html_exporter.py:62-69 | min(10, n) items, in non-increasing importance, drawn from the input, no omitted item more important than a selected one |
| `HtmlExporter.CardsShape` | src/exporters/html_exporter.py:346-353 | cards are ranked 1..n in list order and show the ideas stored under the item's title (none if absent), each with at most its first four features and every other field unchanged |
| `HtmlExporter.ReportCounts` | src/exporters/html_exporter.py:75-76 | the counters agree with the lists: total items, reddit count at most the total, one section per category, one card per top item, section sizes summing to the total |
| `HtmlExporter.Exporter.constructor` | src/exporters/html_exporter.py:15-17 | the exporter keeps its output directory and has written nothing |
| `HtmlExporter.Exporter.CategorizeItems` | src/exporters/html_exporter.py:51-60 | the categories in first-seen order, each with its items in input order |
| `HtmlExporter.Exporter.RenderTop10Card` | src/exporters/html_exporter.py:382-429 | a card shows its rank, its item and each idea with at most four features |
| `HtmlExporter.Exporter.GenerateHtml` | src/exporters/html_exporter.py:71-380 | the counters, the ranked cards with their ideas, and one section per category in order |
| `HtmlExporter.Exporter.Export` | src/exporters/html_exporter.py:19-49 | the page for the date is stored at `<outputDir>/<date>.html`, replacing an older one; missing top-10 list and ideas count as empty |
| `Ranking.TopProperties` | scripts/run_collection.py:30-31 | a stable descending sort cut to n: min(n, len) elements, sorted, a sub-multiset, equal keys in input order, no omitted element ranked above a selected one |
| `RunCollection.GetTop10Properties` | scripts/run_collection.py:21-31 | min(10, n) posts in non-increasing score + 2·comments, from the input, ties in input order, none omitted more engaging than one selected |
| `RunCollection.EngagementKeyMissing` | scripts/run_collection.py:24-28 | a post without engagement data ranks as 0 |
| `RunCollection.AnalyzeAll` | scripts/run_collection.py:63-64 | as many analysed posts as collected; simplified without a client, the batch result with one; the log grows by the analysis requests |
| `RunCollection.CompletedIntro` | scripts/run_collection.py:63-88 | the facts of the analysis, ranking, idea and export steps make up a completed run |
| `RunCollection.Process` | scripts/run_collection.py:61-88 | analysis, top ten of the analysed posts, ideas for the top ten only, and the export of all analysed posts with them |
| `RunCollection.Run` | scripts/run_collection.py:34-96 | no posts iff the collection is empty, and then no request and no page; otherwise a completed run over the collected posts |

## Left out

- Network access, `feedparser` and the RSS HTTP fetch: the parsed feed of each subreddit is the parameter `feeds`; the one-second pause between subreddits is not modelled.
- The wall clock and time zones: `now` (epoch seconds) and `date` are parameters; `published_parsed` is taken as an already converted epoch timestamp, and the footer's generation timestamp is not modelled.
- `json.loads` and the shape checks of the decoded ideas: the parameter `parse`; a payload whose shape makes the formatting raise is folded into `None`.
- The OpenAI client library: request text is a structured `Prompt`, replies come from the service's fixed reply list, and any raised exception is a `Failure` reply; `max_tokens` and `temperature` are not modelled.
- `_analyze_single` exceptions other than those of the two requests are given by the parameter `faulty`, raised after both requests.
- Logging, including the `(i + 1) % 10` progress messages and the idea counts in `main`.
- YAML configuration loading and the creation of the output directory: the collector's subreddits and the categories are parameters.
- The HTML markup and CSS of the page and of `_render_regular_item`: the page is modelled as a `Report` record of its counters, cards and sections; the file write is the update of `Exporter.files`.
- Path handling of `pathlib`: the page path is the string `<outputDir>/<date>.html`.
- `HtmlExporter.Top10ByImportance` (`_get_top10`) is modelled but `export` never calls it, as in the code.
- `AiAnalyzer.AnalyzeSentiment`, `AiAnalyzer.Classify`: `lower()` lowers ASCII letters only.
- `RedditCollector.CountInFirstMatch`: `\d` matches ASCII digits only.
- `RedditCollector.NormalizeEntry`: the only failures modelled for an entry are a missing timestamp, title or link; a timestamp `time.mktime` cannot convert is not representable.
- `AiAnalyzer.Classify`: a configured category without a `name` key (a `KeyError` in `_classify`) cannot be represented; every category has a name.
