/** The data behind the HTML report (src/exporters/html_exporter.py): the items
    grouped by category in first-seen order, the summary counts, the top-10
    cards with their ranks and ideas, and the importance-based top 10. The
    markup itself is not modelled: a report is the structured content the page
    shows, in page order. */
module HtmlExporter {
  import opened Text
  import opened Records
  import Ranking
  import opened Seqs

  const MaxTop: nat := 10
  const MaxRenderedFeatures: nat := 4
  const RedditSource: string := "reddit"

  // ----------------------------------------------------------------- grouping

  /** The distinct keys of the items, each where its first item is. */
  function FirstSeen<T>(items: seq<T>, key: T -> string): seq<string>
    decreases |items|
  {
    if items == [] then []
    else
      var n := |items| - 1;
      var seen := FirstSeen(items[..n], key);
      if key(items[n]) in seen then seen else seen + [key(items[n])]
  }

  /** The items whose key is c, in input order. */
  function Group<T>(items: seq<T>, key: T -> string, c: string): seq<T>
    decreases |items|
  {
    if items == [] then []
    else
      var n := |items| - 1;
      Group(items[..n], key, c) + (if key(items[n]) == c then [items[n]] else [])
  }

  lemma FirstSeenStep<T>(items: seq<T>, key: T -> string, i: nat)
    requires i < |items|
    ensures FirstSeen(items[..i + 1], key) ==
              var seen := FirstSeen(items[..i], key);
              if key(items[i]) in seen then seen else seen + [key(items[i])]
  {
    assert items[..i + 1][..i] == items[..i];
  }

  lemma GroupStep<T>(items: seq<T>, key: T -> string, c: string, i: nat)
    requires i < |items|
    ensures Group(items[..i + 1], key, c) ==
              Group(items[..i], key, c) + (if key(items[i]) == c then [items[i]] else [])
  {
    assert items[..i + 1][..i] == items[..i];
  }

  /** Every key occurs once, and the keys are exactly those of the items. */
  lemma {:induction false} FirstSeenKeys<T>(items: seq<T>, key: T -> string)
    ensures Distinct(FirstSeen(items, key))
    ensures forall c :: c in FirstSeen(items, key) <==> exists i :: 0 <= i < |items| && key(items[i]) == c
    decreases |items|
  {
    if items != [] {
      var n := |items| - 1;
      FirstSeenKeys(items[..n], key);
      forall c ensures c in FirstSeen(items, key) <==> exists i :: 0 <= i < |items| && key(items[i]) == c {
        if c in FirstSeen(items[..n], key) {
          var i :| 0 <= i < n && key(items[..n][i]) == c;
          assert key(items[i]) == c;
        }
        if exists i :: 0 <= i < |items| && key(items[i]) == c {
          var i :| 0 <= i < |items| && key(items[i]) == c;
          if i < n {
            assert key(items[..n][i]) == c;
          }
        }
      }
    }
  }

  /** The keys seen in a prefix of the items come first, in the same order:
      a category's group is placed when its first item is met. */
  lemma {:induction false} FirstSeenPrefix<T>(items: seq<T>, key: T -> string, i: nat)
    requires i <= |items|
    ensures |FirstSeen(items[..i], key)| <= |FirstSeen(items, key)|
    ensures FirstSeen(items[..i], key) == FirstSeen(items, key)[..|FirstSeen(items[..i], key)|]
    decreases |items|
  {
    if i < |items| {
      var n := |items| - 1;
      assert items[..n][..i] == items[..i];
      FirstSeenPrefix(items[..n], key, i);
    } else {
      assert items[..i] == items;
    }
  }

  /** A group holds exactly the items with its key. */
  lemma {:induction false} GroupMembers<T>(items: seq<T>, key: T -> string, c: string)
    ensures forall x :: x in Group(items, key, c) <==> x in items && key(x) == c
    decreases |items|
  {
    if items != [] {
      var n := |items| - 1;
      GroupMembers(items[..n], key, c);
      assert items == items[..n] + [items[n]];
    }
  }

  /** Grouping distributes over concatenation: a group keeps the input order. */
  lemma {:induction false} GroupAppend<T>(a: seq<T>, b: seq<T>, key: T -> string, c: string)
    ensures Group(a + b, key, c) == Group(a, key, c) + Group(b, key, c)
    decreases |b|
  {
    if b == [] {
      assert a + b == a;
    } else {
      var n := |b| - 1;
      GroupAppend(a, b[..n], key, c);
      assert (a + b)[..|a + b| - 1] == a + b[..n];
      AppendAssoc(Group(a, key, c), Group(b[..n], key, c), if key(b[n]) == c then [b[n]] else []);
    }
  }

  /** The summed sizes of the groups of the keys cats. */
  function Total<T>(items: seq<T>, key: T -> string, cats: seq<string>): nat
    decreases |cats|
  {
    if cats == [] then 0 else |Group(items, key, cats[0])| + Total(items, key, cats[1..])
  }

  lemma {:induction false} TotalAppend<T>(items: seq<T>, x: T, key: T -> string, cats: seq<string>)
    requires Distinct(cats)
    ensures Total(items + [x], key, cats) == Total(items, key, cats) + (if key(x) in cats then 1 else 0)
    decreases |cats|
  {
    if cats != [] {
      assert (items + [x])[..|items|] == items;
      assert Distinct(cats[1..]) by {
        forall i, j | 0 <= i < j < |cats[1..]| ensures cats[1..][i] != cats[1..][j] {
          assert cats[1..][i] == cats[i + 1] && cats[1..][j] == cats[j + 1];
        }
      }
      TotalAppend(items, x, key, cats[1..]);
      assert key(x) in cats <==> key(x) == cats[0] || key(x) in cats[1..];
      if key(x) == cats[0] {
        assert key(x) !in cats[1..];
      }
    }
  }

  /** Groups over distinct keys that cover every item have sizes summing to
      the number of items. */
  lemma {:induction false} TotalCovers<T>(items: seq<T>, key: T -> string, cats: seq<string>)
    requires Distinct(cats)
    requires forall i :: 0 <= i < |items| ==> key(items[i]) in cats
    ensures Total(items, key, cats) == |items|
    decreases |items|
  {
    if items == [] {
      TotalEmpty(key, cats);
    } else {
      var n := |items| - 1;
      TotalCovers(items[..n], key, cats);
      assert items == items[..n] + [items[n]];
      TotalAppend(items[..n], items[n], key, cats);
    }
  }

  lemma {:induction false} TotalEmpty<T>(key: T -> string, cats: seq<string>)
    ensures Total([], key, cats) == 0
    decreases |cats|
  {
    if cats != [] {
      TotalEmpty(key, cats[1..]);
    }
  }

  /** _categorize_items as a value: the categories in first-seen order, and
      the group of each. */
  datatype Grouping = Grouping(order: seq<string>, groups: map<string, seq<Item>>) {
    /** A dict's keys in insertion order: each once, and all of them. */
    predicate Valid() {
      && Distinct(order)
      && (forall c :: c in groups ==> c in order)
      && (forall c :: c in order ==> c in groups)
    }
  }

  function Categorized(items: seq<Item>): Grouping {
    var order := FirstSeen(items, CategoryOf);
    Grouping(order, map c | c in order :: Group(items, CategoryOf, c))
  }

  /** Every item falls into exactly one group, the one of its category, and
      the group sizes sum to the number of items. */
  lemma CategorizedPartition(items: seq<Item>)
    ensures Categorized(items).Valid()
    ensures forall c :: c in Categorized(items).groups <==> exists i :: 0 <= i < |items| && CategoryOf(items[i]) == c
    ensures forall c, x :: c in Categorized(items).groups ==>
              (x in Categorized(items).groups[c] <==> x in items && CategoryOf(x) == c)
    ensures Total(items, CategoryOf, Categorized(items).order) == |items|
  {
    var g := Categorized(items);
    FirstSeenKeys(items, CategoryOf);
    forall c | c in g.groups ensures forall x :: x in g.groups[c] <==> x in items && CategoryOf(x) == c {
      GroupMembers(items, CategoryOf, c);
    }
    TotalCovers(items, CategoryOf, g.order);
  }

  /** An item without an analysis, or whose analysis has no category, is
      filed under the default category. */
  lemma CategorizedDefault(items: seq<Item>, i: nat)
    requires i < |items|
    requires items[i].analysis.None? || items[i].analysis.value.category.None?
    ensures DefaultCategory in Categorized(items).groups
    ensures items[i] in Categorized(items).groups[DefaultCategory]
  {
    FirstSeenKeys(items, CategoryOf);
    assert CategoryOf(items[i]) == DefaultCategory;
    GroupMembers(items, CategoryOf, DefaultCategory);
  }

  // ------------------------------------------------------------------ counts

  predicate IsReddit(item: Item) {
    item.source == Some(RedditSource)
  }

  /** sum(1 for item in items if item.get("source") == "reddit") */
  function RedditCount(items: seq<Item>): (n: nat)
    ensures n <= |items|
    decreases |items|
  {
    if items == [] then 0
    else RedditCount(items[..|items| - 1]) + (if IsReddit(items[|items| - 1]) then 1 else 0)
  }

  /** The count reaches the total exactly when every item is from reddit, and
      is zero exactly when none is. */
  lemma {:induction false} RedditCountExtremes(items: seq<Item>)
    ensures RedditCount(items) == |items| <==> forall i :: 0 <= i < |items| ==> IsReddit(items[i])
    ensures RedditCount(items) == 0 <==> forall i :: 0 <= i < |items| ==> !IsReddit(items[i])
    decreases |items|
  {
    if items != [] {
      var n := |items| - 1;
      RedditCountExtremes(items[..n]);
      assert forall i :: 0 <= i < n ==> items[..n][i] == items[i];
    }
  }

  // ------------------------------------------------------------------- top 10

  /** _get_top10: the ten items of highest importance, missing importance
      counting as 0. */
  function Top10ByImportance(items: seq<Item>): seq<Item> {
    Ranking.Top(items, ImportanceOf, MaxTop)
  }

  lemma Top10ByImportanceProperties(items: seq<Item>)
    ensures |Top10ByImportance(items)| == if |items| <= MaxTop then |items| else MaxTop
    ensures Ranking.NonIncreasing(Top10ByImportance(items), ImportanceOf)
    ensures multiset(Top10ByImportance(items)) <= multiset(items)
    ensures forall x, y :: x in multiset(items) - multiset(Top10ByImportance(items)) && y in Top10ByImportance(items) ==>
              ImportanceOf(x) <= ImportanceOf(y)
  {
    Ranking.TopProperties(items, ImportanceOf, MaxTop);
  }

  // ------------------------------------------------------------------ report

  /** A rendered top-10 card: its rank badge, the item, the ideas shown. */
  datatype Card = Card(rank: nat, item: Item, ideas: seq<Idea>)

  /** A category section: its heading and its items in order. */
  datatype Section = Section(category: string, items: seq<Item>)

  /** What the page shows, in page order: the header date, the four counters
      (items, reddit items, categories, top 10), the cards and the sections. */
  datatype Report = Report(
    date: string,
    total: nat,
    redditCount: nat,
    categoryCount: nat,
    top10Count: nat,
    cards: seq<Card>,
    sections: seq<Section>)

  /** An idea as a card shows it: at most four features. */
  function RenderedIdea(idea: Idea): Idea {
    idea.(features := Prefix(idea.features, MaxRenderedFeatures))
  }

  function RenderedIdeas(ideas: seq<Idea>): seq<Idea> {
    seq(|ideas|, i requires 0 <= i < |ideas| => RenderedIdea(ideas[i]))
  }

  /** ideas.get(item.get('title', ''), []) */
  function IdeasFor(item: Item, ideas: map<string, seq<Idea>>): seq<Idea> {
    if TitleKey(item) in ideas then ideas[TitleKey(item)] else []
  }

  function CardFor(item: Item, rank: nat, ideas: map<string, seq<Idea>>): Card {
    Card(rank, item, RenderedIdeas(IdeasFor(item, ideas)))
  }

  /** enumerate(top10, 1): the i-th item gets rank i + 1. */
  function Cards(top10: seq<Item>, ideas: map<string, seq<Idea>>): seq<Card> {
    seq(|top10|, i requires 0 <= i < |top10| => CardFor(top10[i], i + 1, ideas))
  }

  function Sections(categorized: Grouping): seq<Section>
    requires categorized.Valid()
  {
    seq(|categorized.order|, i requires 0 <= i < |categorized.order| =>
      Section(categorized.order[i], categorized.groups[categorized.order[i]]))
  }

  function ReportOf(items: seq<Item>, categorized: Grouping, top10: seq<Item>,
                    ideas: map<string, seq<Idea>>, date: string): Report
    requires categorized.Valid()
  {
    Report(date, |items|, RedditCount(items), |categorized.order|, |top10|,
           Cards(top10, ideas), Sections(categorized))
  }

  /** Cards are ranked 1 to n in list order; each shows the ideas stored under
      its item's exact title (none when there is no entry), with at most four
      features per idea and every other field as generated. */
  lemma CardsShape(top10: seq<Item>, ideas: map<string, seq<Idea>>)
    ensures |Cards(top10, ideas)| == |top10|
    ensures forall i :: 0 <= i < |top10| ==>
              var card := Cards(top10, ideas)[i];
              && card.rank == i + 1
              && card.item == top10[i]
              && (TitleKey(top10[i]) !in ideas ==> card.ideas == [])
              && (TitleKey(top10[i]) in ideas ==> |card.ideas| == |ideas[TitleKey(top10[i])]|)
    ensures forall i, j :: 0 <= i < |top10| && 0 <= j < |Cards(top10, ideas)[i].ideas| ==>
              var shown := Cards(top10, ideas)[i].ideas[j];
              var stored := ideas[TitleKey(top10[i])][j];
              && |shown.features| <= MaxRenderedFeatures
              && shown.features == stored.features[..|shown.features|]
              && shown.name == stored.name && shown.score == stored.score
              && shown.description == stored.description && shown.targetUsers == stored.targetUsers
  {
  }

  /** The counters agree with the lists: the reddit count is at most the
      total, the category counter counts the sections, whose sizes sum to the
      total when the grouping is that of the items. */
  lemma ReportCounts(items: seq<Item>, top10: seq<Item>, ideas: map<string, seq<Idea>>, date: string)
    ensures Categorized(items).Valid()
    ensures var r := ReportOf(items, Categorized(items), top10, ideas, date);
            && r.total == |items|
            && r.redditCount <= r.total
            && r.categoryCount == |r.sections|
            && r.top10Count == |r.cards|
            && SectionSizes(r.sections) == r.total
  {
    CategorizedPartition(items);
    var g := Categorized(items);
    SectionsTotal(items, g.order, 0);
  }

  function SectionSizes(sections: seq<Section>): nat
    decreases |sections|
  {
    if sections == [] then 0 else |sections[0].items| + SectionSizes(sections[1..])
  }

  lemma {:induction false} SectionsTotal(items: seq<Item>, order: seq<string>, from: nat)
    requires Categorized(items).Valid() && order == Categorized(items).order
    requires from <= |order|
    ensures SectionSizes(Sections(Categorized(items))[from..]) == Total(items, CategoryOf, order[from..])
    decreases |order| - from
  {
    var s := Sections(Categorized(items));
    if from < |order| {
      SectionsTotal(items, order, from + 1);
      assert s[from..][1..] == s[from + 1..];
      assert order[from..][1..] == order[from + 1..];
    } else {
      assert s[from..] == [];
      assert order[from..] == [];
    }
  }

  /** The report writer: the exported pages by path. */
  class Exporter {
    const outputDir: string
    var files: map<string, Report>

    constructor (outputDir: string)
      ensures this.outputDir == outputDir && files == map[]
    {
      this.outputDir := outputDir;
      files := map[];
    }

    /** _categorize_items: each item appended to its category's list, a new
        list opened at a category's first item. */
    method CategorizeItems(items: seq<Item>) returns (categorized: Grouping)
      ensures categorized.order == FirstSeen(items, CategoryOf)
      ensures forall c :: c in categorized.groups <==> c in categorized.order
      ensures forall c :: c in categorized.groups ==> categorized.groups[c] == Group(items, CategoryOf, c)
    {
      var order: seq<string> := [];
      var groups: map<string, seq<Item>> := map[];
      for i := 0 to |items|
        invariant GroupedUpTo(items, CategoryOf, i, order, groups)
      {
        ghost var order0, groups0 := order, groups;
        var category := CategoryOf(items[i]);
        if category !in groups {
          order := order + [category];
          groups := groups[category := []];
        }
        groups := groups[category := groups[category] + [items[i]]];
        GroupedStep(items, CategoryOf, i, order0, groups0, order, groups);
      }
      GroupedAll(items, CategoryOf, order, groups);
      categorized := Grouping(order, groups);
    }

    /** _render_top10_card: the ideas shown on a card, each with its
        features cut to four. */
    method RenderTop10Card(item: Item, rank: nat, ideas: seq<Idea>) returns (card: Card)
      ensures card == Card(rank, item, RenderedIdeas(ideas))
    {
      var shown: seq<Idea> := [];
      for j := 0 to |ideas|
        invariant |shown| == j
        invariant forall k :: 0 <= k < j ==> shown[k] == RenderedIdea(ideas[k])
      {
        shown := shown + [ideas[j].(features := Prefix(ideas[j].features, MaxRenderedFeatures))];
      }
      card := Card(rank, item, shown);
    }

    /** _generate_html: the counters, then one card per top-10 item with its
        rank and ideas, then one section per category. */
    method GenerateHtml(items: seq<Item>, categorized: Grouping, top10: seq<Item>,
                        ideas: map<string, seq<Idea>>, date: string) returns (report: Report)
      requires categorized.Valid()
      ensures report == ReportOf(items, categorized, top10, ideas, date)
    {
      var cards: seq<Card> := [];
      for i := 0 to |top10|
        invariant |cards| == i
        invariant forall k :: 0 <= k < i ==> cards[k] == CardFor(top10[k], k + 1, ideas)
      {
        var title := TitleKey(top10[i]);
        var found := if title in ideas then ideas[title] else [];
        var card := RenderTop10Card(top10[i], i + 1, found);
        cards := cards + [card];
      }
      var sections: seq<Section> := [];
      for i := 0 to |categorized.order|
        invariant |sections| == i
        invariant forall k :: 0 <= k < i ==>
                    sections[k] == Section(categorized.order[k], categorized.groups[categorized.order[k]])
      {
        var category := categorized.order[i];
        sections := sections + [Section(category, categorized.groups[category])];
      }
      report := Report(date, |items|, RedditCount(items), |categorized.order|, |top10|, cards, sections);
    }

    /** export: the page for the date is written to <outputDir>/<date>.html,
        replacing any earlier page of that date. A missing top-10 list or
        ideas map counts as empty. */
    method Export(items: seq<Item>, top10: Option<seq<Item>>, ideas: Option<map<string, seq<Idea>>>,
                  date: string) returns (path: string)
      modifies this
      ensures path == outputDir + "/" + date + ".html"
      ensures Categorized(items).Valid()
      ensures files == old(files)[path := ReportOf(items, Categorized(items), top10.GetOr([]), ideas.GetOr(map[]), date)]
    {
      var categorized := CategorizeItems(items);
      CategorizedPartition(items);
      assert categorized == Categorized(items);
      var report := GenerateHtml(items, categorized, top10.GetOr([]), ideas.GetOr(map[]), date);
      path := outputDir + "/" + date + ".html";
      files := files[path := report];
    }
  }

  /** The state of _categorize_items after the first i items. */
  ghost predicate GroupedUpTo<T>(items: seq<T>, key: T -> string, i: nat, order: seq<string>, groups: map<string, seq<T>>)
    requires i <= |items|
  {
    && order == FirstSeen(items[..i], key)
    && (forall c :: c in groups ==> c in order)
    && (forall c :: c in order ==> c in groups)
    && (forall c :: c in groups ==> groups[c] == Group(items[..i], key, c))
  }

  /** One turn of _categorize_items: item i opens its category's list if it
      is the first of its category, then joins it. */
  lemma GroupedStep<T>(items: seq<T>, key: T -> string, i: nat, order: seq<string>, groups: map<string, seq<T>>,
                       order': seq<string>, groups': map<string, seq<T>>)
    requires i < |items| && GroupedUpTo(items, key, i, order, groups)
    requires key(items[i]) in groups ==> order' == order
    requires key(items[i]) !in groups ==> order' == order + [key(items[i])]
    requires forall c :: c in groups' <==> c in groups || c == key(items[i])
    requires forall c :: c in groups && c != key(items[i]) ==> groups'[c] == groups[c]
    requires groups'[key(items[i])] == (if key(items[i]) in groups then groups[key(items[i])] else []) + [items[i]]
    ensures GroupedUpTo(items, key, i + 1, order', groups')
  {
    FirstSeenStep(items, key, i);
    if key(items[i]) !in groups {
      GroupAbsent(items[..i], key, key(items[i]));
    }
    forall c | c in groups' ensures groups'[c] == Group(items[..i + 1], key, c) {
      GroupStep(items, key, c, i);
    }
  }

  lemma GroupedAll<T>(items: seq<T>, key: T -> string, order: seq<string>, groups: map<string, seq<T>>)
    requires GroupedUpTo(items, key, |items|, order, groups)
    ensures order == FirstSeen(items, key)
    ensures forall c :: c in groups <==> c in order
    ensures forall c :: c in groups ==> groups[c] == Group(items, key, c)
  {
    assert items[..|items|] == items;
  }

  lemma GroupAbsent<T>(items: seq<T>, key: T -> string, c: string)
    requires c !in FirstSeen(items, key)
    ensures Group(items, key, c) == []
  {
    FirstSeenKeys(items, key);
    GroupMembers(items, key, c);
  }
}
