/** Collection of recent posts from subreddit RSS feeds, normalised into items
    (src/collectors/reddit_collector.py). Fetching and parsing a feed is an
    oracle `feeds`; timestamps are integers (seconds). */
module RedditCollector {
  import opened Text
  import opened Records
  import opened Seqs

  /** A feed entry as the feed parser exposes it: every attribute may be missing. */
  datatype Entry = Entry(
    id: Option<string>,
    title: Option<string>,
    author: Option<string>,
    link: Option<string>,
    published: Option<int>,
    summary: Option<string>)

  /** The outcome of fetching and parsing one subreddit's feed. */
  datatype Feed = Feed(entries: seq<Entry>) | FetchError

  /** What becomes of one entry: a post, skipped as too old, or skipped because
      reading it raised (a missing timestamp, title or link). */
  datatype EntryOutcome = Post(item: Item) | TooOld | Malformed

  const UnitPoint: string := " point"
  const UnitComment: string := " comment"

  predicate IsDigit(c: char) {
    '0' <= c <= '9'
  }

  predicate AllDigits(s: string) {
    forall k :: 0 <= k < |s| ==> IsDigit(s[k])
  }

  /** int(ds) for a string of decimal digits. */
  function DigitsValue(ds: string): nat
    requires AllDigits(ds)
    decreases |ds|
  {
    if ds == [] then 0
    else DigitsValue(ds[..|ds| - 1]) * 10 + (ds[|ds| - 1] as int - '0' as int)
  }

  /** The position just after the run of digits that starts at i. */
  function RunEnd(s: string, i: nat): (e: nat)
    requires i <= |s|
    ensures i <= e <= |s|
    ensures forall k :: i <= k < e ==> IsDigit(s[k])
    ensures e == |s| || !IsDigit(s[e])
    decreases |s| - i
  {
    if i < |s| && IsDigit(s[i]) then RunEnd(s, i + 1) else i
  }

  /** The pattern `(\d+)` followed by unit matches s at position i. */
  predicate MatchesAt(s: string, unit: string, i: int) {
    0 <= i < |s| && IsDigit(s[i]) && StartsWith(s[RunEnd(s, i)..], unit)
  }

  /** The number captured at position i. */
  function ValueAt(s: string, i: nat): nat
    requires i <= |s|
  {
    DigitsValue(s[i..RunEnd(s, i)])
  }

  /** The scan re.search performs from position i, which is never inside a run
      of digits: a run followed by unit gives its value, any other run is skipped
      whole, and no match at all gives 0. */
  function ScanFrom(s: string, unit: string, i: nat): nat
    requires i <= |s|
    decreases |s| - i
  {
    if i == |s| then 0
    else if IsDigit(s[i]) then
      var e := RunEnd(s, i);
      if StartsWith(s[e..], unit) then ValueAt(s, i) else ScanFrom(s, unit, e)
    else ScanFrom(s, unit, i + 1)
  }

  /** int(re.search(r'(\d+)' + unit, s).group(1)) if there is a match, else 0. */
  function CountIn(s: string, unit: string): nat {
    ScanFrom(s, unit, 0)
  }

  /** No match of the pattern starts before position i. */
  predicate NoMatchBefore(s: string, unit: string, i: int) {
    forall j :: 0 <= j < i ==> !MatchesAt(s, unit, j)
  }

  /** m is the leftmost match of the pattern. */
  predicate IsFirstMatch(s: string, unit: string, m: int) {
    MatchesAt(s, unit, m) && NoMatchBefore(s, unit, m)
  }

  lemma {:induction false} ScanFromFindsFirst(s: string, unit: string, i: nat)
    requires i <= |s|
    requires 0 < i < |s| && IsDigit(s[i]) ==> !IsDigit(s[i - 1])
    requires NoMatchBefore(s, unit, i)
    ensures forall m :: IsFirstMatch(s, unit, m) ==> ScanFrom(s, unit, i) == ValueAt(s, m)
    ensures NoMatchBefore(s, unit, |s|) ==> ScanFrom(s, unit, i) == 0
    decreases |s| - i
  {
    if i < |s| {
      if IsDigit(s[i]) {
        var e := RunEnd(s, i);
        if StartsWith(s[e..], unit) {
          assert MatchesAt(s, unit, i);
          forall m | IsFirstMatch(s, unit, m) ensures m == i {
          }
        } else {
          forall j | 0 <= j < e ensures !MatchesAt(s, unit, j) {
            if i <= j {
              assert RunEnd(s, j) == e;
            }
          }
          ScanFromFindsFirst(s, unit, e);
        }
      } else {
        assert !MatchesAt(s, unit, i);
        ScanFromFindsFirst(s, unit, i + 1);
      }
    }
  }

  /** CountIn is the value of the leftmost match of the digit run followed by
      unit, and 0 when the text has none. */
  lemma CountInFirstMatch(s: string, unit: string)
    ensures forall m :: IsFirstMatch(s, unit, m) ==> CountIn(s, unit) == ValueAt(s, m)
    ensures NoMatchBefore(s, unit, |s|) ==> CountIn(s, unit) == 0
  {
    ScanFromFindsFirst(s, unit, 0);
  }

  /** entry.id.split('/')[-1]: the text after the last '/', or all of it. */
  function LastSegment(s: string): (r: string)
    ensures |r| <= |s| && r == s[|s| - |r|..]
    ensures '/' !in r
    ensures |r| < |s| ==> s[|s| - |r| - 1] == '/'
    decreases |s|
  {
    if s == [] || s[|s| - 1] == '/' then []
    else LastSegment(s[..|s| - 1]) + [s[|s| - 1]]
  }

  /** One entry of _collect_via_rss's loop: entries older than the cutoff are
      skipped, entries missing a timestamp, title or link raise and are skipped,
      and a post's engagement mirrors its score and comment count, defaults fill
      the missing attributes, and raw_text is the title, a space and the summary. */
  function NormalizeEntry(entry: Entry, subreddit: string, cutoff: int): (o: EntryOutcome)
    ensures o.TooOld? <==> entry.published.Some? && entry.published.value < cutoff
    ensures o.Post? <==> entry.published.Some? && entry.published.value >= cutoff &&
                         entry.title.Some? && entry.link.Some?
    ensures o.Post? ==>
      var it := o.item;
      && it.createdUtc == entry.published.value
      && it.title == entry.title
      && it.score == (if entry.summary.Some? then CountIn(entry.summary.value, UnitPoint) else 0)
      && it.numComments == (if entry.summary.Some? then CountIn(entry.summary.value, UnitComment) else 0)
      && it.engagement == Some(Engagement(Some(it.score), Some(it.numComments), 0.9, 0))
      && EngagementScore(it) == it.score && EngagementComments(it) == it.numComments
      && it.upvoteRatio == 0.9
      && it.author == (if entry.author.Some? then entry.author.value else "unknown")
      && it.selftext == (if entry.summary.Some? then entry.summary.value else "")
      && (entry.id.None? ==> it.id == "")
      && (entry.id.Some? ==> it.id == LastSegment(entry.id.value) && '/' !in it.id && EndsWith(entry.id.value, it.id))
      && it.rawText == Some(entry.title.value + " " + it.selftext)
      && it.source == Some("reddit")
      && it.subreddit == subreddit
      && it.analysis.None?
  {
    match entry.published
    case None => Malformed
    case Some(published) =>
      if published < cutoff then TooOld
      else if entry.title.None? || entry.link.None? then Malformed
      else
        var score := if entry.summary.Some? then CountIn(entry.summary.value, UnitPoint) else 0;
        var numComments := if entry.summary.Some? then CountIn(entry.summary.value, UnitComment) else 0;
        var title := entry.title.value;
        Post(Item(
          id := if entry.id.Some? then LastSegment(entry.id.value) else "",
          title := Some(title),
          author := entry.author.GetOr("unknown"),
          subreddit := subreddit,
          url := entry.link.value,
          permalink := entry.link.value,
          score := score,
          upvoteRatio := 0.9,
          numComments := numComments,
          createdUtc := published,
          selftext := entry.summary.GetOr(""),
          linkFlairText := "",
          isSelf := true,
          source := Some("reddit"),
          engagement := Some(Engagement(Some(score), Some(numComments), 0.9, 0)),
          rawText := Some(title + " " + entry.summary.GetOr("")),
          analysis := None))
  }

  /** The posts of one feed: the entries that normalise to a post, in feed order. */
  function RssPosts(entries: seq<Entry>, subreddit: string, cutoff: int): seq<Item>
    decreases |entries|
  {
    if entries == [] then []
    else
      var last := NormalizeEntry(entries[|entries| - 1], subreddit, cutoff);
      RssPosts(entries[..|entries| - 1], subreddit, cutoff) + (if last.Post? then [last.item] else [])
  }

  /** Entries are handled independently: the posts of a + b are those of a then those of b.
      In particular a malformed or old entry drops out without disturbing the others. */
  lemma {:induction false} RssPostsAppend(a: seq<Entry>, b: seq<Entry>, subreddit: string, cutoff: int)
    ensures RssPosts(a + b, subreddit, cutoff) == RssPosts(a, subreddit, cutoff) + RssPosts(b, subreddit, cutoff)
    decreases |b|
  {
    if b == [] {
      assert a + b == a;
    } else {
      var n := |b|;
      assert (a + b)[..|a + b| - 1] == a + b[..n - 1];
      assert (a + b)[|a + b| - 1] == b[n - 1];
      RssPostsAppend(a, b[..n - 1], subreddit, cutoff);
    }
  }

  /** Every post of a feed was published at or after the cutoff, comes from
      that subreddit, and there are at most as many posts as entries. */
  lemma {:induction false} RssPostsBounds(entries: seq<Entry>, subreddit: string, cutoff: int)
    ensures |RssPosts(entries, subreddit, cutoff)| <= |entries|
    ensures forall p :: p in RssPosts(entries, subreddit, cutoff) ==>
              p.createdUtc >= cutoff && p.subreddit == subreddit && p.source == Some("reddit")
    decreases |entries|
  {
    if entries != [] {
      RssPostsBounds(entries[..|entries| - 1], subreddit, cutoff);
    }
  }

  /** The posts of one subreddit: none when the feed could not be fetched. */
  function SubredditPosts(feed: Feed, subreddit: string, cutoff: int): seq<Item> {
    match feed
    case FetchError => []
    case Feed(entries) => RssPosts(entries, subreddit, cutoff)
  }

  /** The posts of all configured subreddits, concatenated in configured order. */
  function AllPosts(subreddits: seq<string>, feeds: string -> Feed, cutoff: int): seq<Item>
    decreases |subreddits|
  {
    if subreddits == [] then []
    else
      var last := subreddits[|subreddits| - 1];
      AllPosts(subreddits[..|subreddits| - 1], feeds, cutoff) + SubredditPosts(feeds(last), last, cutoff)
  }

  lemma {:induction false} AllPostsAppend(a: seq<string>, b: seq<string>, feeds: string -> Feed, cutoff: int)
    ensures AllPosts(a + b, feeds, cutoff) == AllPosts(a, feeds, cutoff) + AllPosts(b, feeds, cutoff)
    decreases |b|
  {
    if b == [] {
      assert a + b == a;
      AppendEmpty(AllPosts(a, feeds, cutoff));
    } else {
      var n := |b|;
      var last := b[n - 1];
      assert (a + b)[..|a + b| - 1] == a + b[..n - 1];
      assert (a + b)[|a + b| - 1] == last;
      AllPostsAppend(a, b[..n - 1], feeds, cutoff);
      AppendAssoc(AllPosts(a, feeds, cutoff), AllPosts(b[..n - 1], feeds, cutoff), SubredditPosts(feeds(last), last, cutoff));
    }
  }

  /** A subreddit whose feed fails contributes nothing and the others are unaffected. */
  lemma FailingSubredditSkipped(a: seq<string>, s: string, b: seq<string>, feeds: string -> Feed, cutoff: int)
    requires feeds(s) == FetchError
    ensures AllPosts(a + [s] + b, feeds, cutoff) == AllPosts(a, feeds, cutoff) + AllPosts(b, feeds, cutoff)
  {
    AllPostsAppend(a + [s], b, feeds, cutoff);
    AllPostsAppend(a, [s], feeds, cutoff);
    assert [s][..0] == [];
    assert AllPosts([s], feeds, cutoff) == AllPosts([], feeds, cutoff) + SubredditPosts(FetchError, s, cutoff) == [];
    assert AllPosts(a, feeds, cutoff) + [] == AllPosts(a, feeds, cutoff);
  }

  /** The collector's configuration: the subreddits to read and a minimum score
      that is read but never used to filter. */
  class Collector {
    const subreddits: seq<string>
    const minScore: Option<int>

    constructor (subreddits: seq<string>, minScore: Option<int>)
      ensures this.subreddits == subreddits && this.minScore == minScore
    {
      this.subreddits := subreddits;
      this.minScore := minScore;
    }

    /** _collect_via_rss: normalise each entry of the feed, appending the posts. */
    method CollectViaRss(subreddit: string, feed: Feed, cutoff: int) returns (posts: seq<Item>)
      ensures posts == SubredditPosts(feed, subreddit, cutoff)
    {
      posts := [];
      if feed.FetchError? {
        return;
      }
      var entries := feed.entries;
      for i := 0 to |entries|
        invariant posts == RssPosts(entries[..i], subreddit, cutoff)
      {
        assert entries[..i + 1][..i] == entries[..i];
        var outcome := NormalizeEntry(entries[i], subreddit, cutoff);
        if outcome.Post? {
          posts := posts + [outcome.item];
        }
      }
      assert entries[..|entries|] == entries;
    }

    /** collect: the cutoff is `now` minus the look-back window; the posts of
        every subreddit are appended in configured order. */
    method Collect(lookbackHours: int, now: int, feeds: string -> Feed) returns (allPosts: seq<Item>)
      ensures allPosts == AllPosts(subreddits, feeds, now - lookbackHours * 3600)
    {
      var cutoff := now - lookbackHours * 3600;
      allPosts := [];
      for i := 0 to |subreddits|
        invariant allPosts == AllPosts(subreddits[..i], feeds, cutoff)
      {
        assert subreddits[..i + 1][..i] == subreddits[..i];
        var posts := CollectViaRss(subreddits[i], feeds(subreddits[i]), cutoff);
        allPosts := allPosts + posts;
      }
      assert subreddits[..|subreddits|] == subreddits;
    }
  }
}
