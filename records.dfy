/** The records the pipeline passes between its stages. A Python dict read with
    `.get(key, default)` becomes a field of Option type here, so that "absent"
    stays distinguishable from any present value. */
module Records {

  datatype Option<+T> = None | Some(value: T) {
    /** dict.get(key, default) */
    function GetOr(default: T): T {
      match this
      case Some(v) => v
      case None => default
    }
  }

  /** The fallback category label used throughout the pipeline. */
  const DefaultCategory: string := "AI 相关"

  /** The `engagement` sub-record of an item. */
  datatype Engagement = Engagement(score: Option<int>, comments: Option<int>, upvoteRatio: real, awards: int)

  datatype SentimentLabel = Positive | Negative | Neutral

  /** The `sentiment` sub-record of an analysis: a label and the glyph shown beside it. */
  datatype Sentiment = Sentiment(polarity: SentimentLabel, emoji: string)

  const PositiveSentiment := Sentiment(Positive, "😊")
  const NegativeSentiment := Sentiment(Negative, "😟")
  const NeutralSentiment := Sentiment(Neutral, "😐")

  /** The `analysis` record the analyser attaches to an item. The exporter reads
      `category` and `importance` with defaults, so those two may be absent. */
  datatype Analysis = Analysis(
    category: Option<string>,
    summary: string,
    keyPoints: seq<string>,
    sentiment: Sentiment,
    importance: Option<int>)

  /** One collected post. Fields that later stages read with `.get` are optional. */
  datatype Item = Item(
    id: string,
    title: Option<string>,
    author: string,
    subreddit: string,
    url: string,
    permalink: string,
    score: int,
    upvoteRatio: real,
    numComments: int,
    createdUtc: int,
    selftext: string,
    linkFlairText: string,
    isSelf: bool,
    source: Option<string>,
    engagement: Option<Engagement>,
    rawText: Option<string>,
    analysis: Option<Analysis>)

  /** One product idea. */
  datatype Idea = Idea(name: string, description: string, features: seq<string>, targetUsers: string, score: int)

  /** One configured category: a label and the keywords that select it. */
  datatype Category = Category(name: string, keywords: seq<string>)

  /** item.get('title', '') */
  function TitleKey(item: Item): string {
    item.title.GetOr("")
  }

  /** item.get('engagement', {}).get('score', 0) */
  function EngagementScore(item: Item): int {
    match item.engagement
    case None => 0
    case Some(e) => e.score.GetOr(0)
  }

  /** item.get('engagement', {}).get('comments', 0) */
  function EngagementComments(item: Item): int {
    match item.engagement
    case None => 0
    case Some(e) => e.comments.GetOr(0)
  }

  /** item.get('analysis', {}).get('category', 'AI 相关') */
  function CategoryOf(item: Item): string {
    match item.analysis
    case None => DefaultCategory
    case Some(a) => a.category.GetOr(DefaultCategory)
  }

  /** item.get('analysis', {}).get('summary', '') */
  function SummaryOf(item: Item): string {
    match item.analysis
    case None => ""
    case Some(a) => a.summary
  }

  /** item.get('analysis', {}).get('importance', 0) */
  function ImportanceOf(item: Item): int {
    match item.analysis
    case None => 0
    case Some(a) => a.importance.GetOr(0)
  }
}
