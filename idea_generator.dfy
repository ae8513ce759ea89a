/** Product ideas for the top hotspots (src/processors/ai_idea_generator.py):
    one service request per hotspot, the reply's markdown fence removed, its
    JSON payload normalised, and a fixed pair of fallback ideas whenever there
    is no client or anything fails. Decoding the JSON text is a parameter
    `parse` of the model: None stands for any decoding error and for a payload
    whose shape makes the formatting raise. */
module AiIdeaGenerator {
  import opened Text
  import opened Records
  import opened Llm
  import opened Seqs

  /** max_ideas */
  const MaxIdeas: nat := 1

  const JsonFence: string := "```json"
  const Fence: string := "```"

  const UnnamedIdea: string := "未命名"
  const DefaultIdeaScore: int := 80
  const MaxFeatures: nat := 4

  /** One element of the payload's `ideas` list: every key may be missing. */
  datatype RawIdea = RawIdea(
    name: Option<string>,
    description: Option<string>,
    features: Option<seq<string>>,
    targetUsers: Option<string>,
    score: Option<int>)

  /** The decoded reply: its `ideas` key may be missing. */
  datatype Payload = Payload(ideas: Option<seq<RawIdea>>)

  // ----------------------------------------------------------------- fallback

  /** _fallback_ideas: two fixed ideas named after the hotspot's category. */
  function FallbackIdeas(hotspot: Item): seq<Idea> {
    var category := CategoryOf(hotspot);
    [ Idea(category + "分析工具", "基于该热点的数据分析平台",
           ["数据监控", "趋势分析", "报告生成", "API 接口"], "AI 研究人员、产品经理", 75),
      Idea(category + "通知服务", "实时推送相关动态",
           ["实时推送", "个性化订阅", "多平台支持", "智能过滤"], "关注该领域的专业人士", 70) ]
  }

  /** Always two ideas, scored 75 and 70, with four features each, named after
      the category ("AI 相关" when the hotspot has none). */
  lemma FallbackIdeasShape(hotspot: Item)
    ensures var r := FallbackIdeas(hotspot);
            && |r| == 2
            && r[0].score == 75 && r[1].score == 70
            && |r[0].features| == 4 && |r[1].features| == 4
            && StartsWith(r[0].name, CategoryOf(hotspot)) && StartsWith(r[1].name, CategoryOf(hotspot))
            && r[0].name != r[1].name
            && (hotspot.analysis.None? ==> StartsWith(r[0].name, DefaultCategory))
  {
    var c := CategoryOf(hotspot);
    var r := FallbackIdeas(hotspot);
    assert r[0].name[..|c|] == c;
    assert r[1].name[..|c|] == c;
    assert r[0].name[|c|] != r[1].name[|c|];
  }

  /** The fallback depends on the category alone, not on the title. */
  lemma FallbackIgnoresTitle(a: Item, b: Item)
    requires CategoryOf(a) == CategoryOf(b)
    ensures FallbackIdeas(a) == FallbackIdeas(b)
  {
  }

  // ---------------------------------------------------------- fence stripping

  function DropPrefix(s: string, p: string): string {
    if StartsWith(s, p) then s[|p|..] else s
  }

  function DropSuffix(s: string, p: string): string {
    if EndsWith(s, p) then s[..|s| - |p|] else s
  }

  /** The cleanup of the reply text: a leading "```json", then a leading
      "```", then a trailing "```" are removed, and the rest is stripped. */
  function FenceStripped(content: string): (r: string)
    ensures IsStripped(r)
  {
    Strip(DropSuffix(DropPrefix(DropPrefix(content, JsonFence), Fence), Fence))
  }

  /** Text without fences is only trimmed. */
  lemma FenceStrippedPlain(content: string)
    requires !StartsWith(content, Fence) && !EndsWith(content, Fence)
    ensures FenceStripped(content) == Strip(content)
  {
    assert !StartsWith(content, JsonFence);
  }

  /** A reply that is already trimmed and has no fences comes back unchanged. */
  lemma FenceStrippedClean(content: string)
    requires IsStripped(content) && !StartsWith(content, Fence) && !EndsWith(content, Fence)
    ensures FenceStripped(content) == content
  {
    FenceStrippedPlain(content);
    StripStripped(content);
  }

  /** A fenced JSON block gives its trimmed body. */
  lemma FenceStrippedBlock(body: string)
    requires body != [] && body[0] != '`'
    ensures FenceStripped(JsonFence + body + Fence) == Strip(body)
  {
    var c := JsonFence + body + Fence;
    assert StartsWith(c, JsonFence) by {
      assert c[..|JsonFence|] == JsonFence;
    }
    var afterJson := body + Fence;
    assert c[|JsonFence|..] == afterJson;
    assert !StartsWith(afterJson, Fence) by {
      assert afterJson[0] == body[0];
    }
    assert EndsWith(afterJson, Fence) by {
      assert afterJson[|afterJson| - 3..] == Fence;
    }
    assert afterJson[..|afterJson| - 3] == body;
  }

  /** The fence-removal steps of generate_for_hotspot, on the stripped reply. */
  method StripFence(content: string) returns (r: string)
    ensures r == FenceStripped(content)
  {
    r := content;
    if StartsWith(r, JsonFence) {
      r := r[7..];
    }
    if StartsWith(r, Fence) {
      r := r[3..];
    }
    if EndsWith(r, Fence) {
      r := r[..|r| - 3];
    }
    r := Strip(r);
  }

  // --------------------------------------------------------------- formatting

  /** One formatted idea: missing keys get their defaults, features are cut to four. */
  function Normalize(raw: RawIdea): Idea {
    Idea(
      raw.name.GetOr(UnnamedIdea),
      raw.description.GetOr(""),
      Prefix(raw.features.GetOr([]), MaxFeatures),
      raw.targetUsers.GetOr(""),
      raw.score.GetOr(DefaultIdeaScore))
  }

  /** At most four features, the leading ones of the raw list, all of them
      when there are at most four; every missing key takes its default. */
  lemma NormalizeDefaults(raw: RawIdea)
    ensures var idea := Normalize(raw);
            var given := raw.features.GetOr([]);
            && |idea.features| <= MaxFeatures
            && idea.features == given[..|idea.features|]
            && (|given| <= MaxFeatures ==> idea.features == given)
            && (raw.name.None? ==> idea.name == UnnamedIdea)
            && (raw.description.None? ==> idea.description == "")
            && (raw.features.None? ==> idea.features == [])
            && (raw.targetUsers.None? ==> idea.targetUsers == "")
            && (raw.score.None? ==> idea.score == DefaultIdeaScore)
            && (raw.name.Some? ==> idea.name == raw.name.value)
            && (raw.description.Some? ==> idea.description == raw.description.value)
            && (raw.targetUsers.Some? ==> idea.targetUsers == raw.targetUsers.value)
            && (raw.score.Some? ==> idea.score == raw.score.value)
  {
  }

  /** The formatted list of some raw ideas, in order. */
  function FormatAll(raws: seq<RawIdea>): seq<Idea>
    decreases |raws|
  {
    if raws == [] then []
    else FormatAll(raws[..|raws| - 1]) + [Normalize(raws[|raws| - 1])]
  }

  /** One formatted idea per raw idea, in the same order. */
  lemma {:induction false} FormatAllAt(raws: seq<RawIdea>)
    ensures |FormatAll(raws)| == |raws|
    ensures forall i :: 0 <= i < |raws| ==> FormatAll(raws)[i] == Normalize(raws[i])
    decreases |raws|
  {
    if raws != [] {
      var n := |raws| - 1;
      FormatAllAt(raws[..n]);
      forall i | 0 <= i < n ensures FormatAll(raws)[i] == Normalize(raws[i]) {
        assert raws[..n][i] == raws[i];
      }
    }
  }

  lemma FormatAllStep(raws: seq<RawIdea>, i: nat)
    requires i < |raws|
    ensures FormatAll(raws[..i + 1]) == FormatAll(raws[..i]) + [Normalize(raws[i])]
  {
    assert raws[..i + 1][..i] == raws[..i];
  }

  /** The formatting loop over ideas[:max]. */
  method FormatIdeas(ideas: seq<RawIdea>, max: nat) returns (formatted: seq<Idea>)
    ensures formatted == FormatAll(Prefix(ideas, max))
  {
    var taken := Prefix(ideas, max);
    formatted := [];
    for i := 0 to |taken|
      invariant formatted == FormatAll(taken[..i])
    {
      FormatAllStep(taken, i);
      formatted := formatted + [Normalize(taken[i])];
    }
    WholeSlice(taken);
  }

  // ---------------------------------------------------------- one hotspot

  /** The request generate_for_hotspot sends. */
  function IdeaRequest(hotspot: Item): Prompt {
    IdeaPrompt(MaxIdeas, TitleKey(hotspot), CategoryOf(hotspot), SummaryOf(hotspot))
  }

  /** generate_for_hotspot with a client, given the service's reply. */
  function IdeasFrom(hotspot: Item, reply: Reply, parse: string -> Option<Payload>): seq<Idea> {
    match reply
    case Failure => FallbackIdeas(hotspot)
    case Text(content) =>
      match parse(FenceStripped(Strip(content)))
      case None => FallbackIdeas(hotspot)
      case Some(payload) => FormatAll(Prefix(payload.ideas.GetOr([]), MaxIdeas))
  }

  /** Any failure of the call or of the decoding gives the fallback; a decoded
      reply gives at most max_ideas ideas, each the normalised form of the
      corresponding raw idea. */
  lemma IdeasFromOutcome(hotspot: Item, reply: Reply, parse: string -> Option<Payload>)
    ensures reply.Failure? ==> IdeasFrom(hotspot, reply, parse) == FallbackIdeas(hotspot)
    ensures reply.Text? && parse(FenceStripped(Strip(reply.content))).None? ==>
              IdeasFrom(hotspot, reply, parse) == FallbackIdeas(hotspot)
    ensures reply.Text? && parse(FenceStripped(Strip(reply.content))).Some? ==>
              var raws := parse(FenceStripped(Strip(reply.content))).value.ideas.GetOr([]);
              && |IdeasFrom(hotspot, reply, parse)| <= MaxIdeas
              && |IdeasFrom(hotspot, reply, parse)| == (if |raws| <= MaxIdeas then |raws| else MaxIdeas)
              && forall i :: 0 <= i < |IdeasFrom(hotspot, reply, parse)| ==>
                   IdeasFrom(hotspot, reply, parse)[i] == Normalize(raws[i])
  {
    if reply.Text? {
      var parsed := parse(FenceStripped(Strip(reply.content)));
      if parsed.Some? {
        var taken := Prefix(parsed.value.ideas.GetOr([]), MaxIdeas);
        FormatAllAt(taken);
      }
    }
  }

  /** Whatever happens, every idea has at most four features. */
  lemma IdeasFromFeaturesCapped(hotspot: Item, reply: Reply, parse: string -> Option<Payload>)
    ensures forall idea :: idea in IdeasFrom(hotspot, reply, parse) ==> |idea.features| <= MaxFeatures
  {
    IdeasFromOutcome(hotspot, reply, parse);
    var r := IdeasFrom(hotspot, reply, parse);
    if reply.Text? && parse(FenceStripped(Strip(reply.content))).Some? {
      forall idea | idea in r ensures |idea.features| <= MaxFeatures {
        var i :| 0 <= i < |r| && r[i] == idea;
        NormalizeDefaults(parse(FenceStripped(Strip(reply.content))).value.ideas.GetOr([])[i]);
      }
    }
  }

  /** The ideas for one hotspot: the fallback without a client, else the
      outcome of the reply to call k. */
  function HotspotIdeas(client: Client, hotspot: Item, replies: seq<Reply>, k: nat,
                        parse: string -> Option<Payload>): seq<Idea> {
    if client.NoClient? then FallbackIdeas(hotspot) else IdeasFrom(hotspot, ReplyAt(replies, k), parse)
  }

  /** Without a client the call number plays no part. */
  lemma HotspotIdeasAnyCall(client: Client, hotspot: Item, replies: seq<Reply>, k1: nat, k2: nat,
                            parse: string -> Option<Payload>)
    requires client.Client? ==> k1 == k2
    ensures HotspotIdeas(client, hotspot, replies, k1, parse) == HotspotIdeas(client, hotspot, replies, k2, parse)
  {
  }

  // ---------------------------------------------------------------- batch

  /** The requests generate_for_top10 makes with a client, hotspot by hotspot. */
  function IdeaRequests(hotspots: seq<Item>): seq<Prompt>
    decreases |hotspots|
  {
    if hotspots == [] then []
    else IdeaRequests(hotspots[..|hotspots| - 1]) + [IdeaRequest(hotspots[|hotspots| - 1])]
  }

  /** One request per hotspot, in order: request i is about hotspot i. */
  lemma {:induction false} IdeaRequestsOrder(hotspots: seq<Item>)
    ensures |IdeaRequests(hotspots)| == |hotspots|
    ensures forall i :: 0 <= i < |hotspots| ==> IdeaRequests(hotspots)[i] == IdeaRequest(hotspots[i])
    decreases |hotspots|
  {
    if hotspots != [] {
      var n := |hotspots|;
      var init := hotspots[..n - 1];
      IdeaRequestsOrder(init);
      forall i | 0 <= i < n - 1 ensures IdeaRequests(hotspots)[i] == IdeaRequest(hotspots[i]) {
        assert init[i] == hotspots[i];
      }
    }
  }

  /** Each hotspot's value stored under its title, hotspot by hotspot; the
      value of the k-th hotspot h is ideasOf(h, k). */
  function TitleMap(hotspots: seq<Item>, ideasOf: (Item, nat) -> seq<Idea>): map<string, seq<Idea>>
    decreases |hotspots|
  {
    if hotspots == [] then map[]
    else
      var n := |hotspots| - 1;
      TitleMap(hotspots[..n], ideasOf)[TitleKey(hotspots[n]) := ideasOf(hotspots[n], n)]
  }

  lemma {:induction false} TitleMapKeys(hotspots: seq<Item>, ideasOf: (Item, nat) -> seq<Idea>)
    ensures TitleMap(hotspots, ideasOf).Keys == set h | h in hotspots :: TitleKey(h)
    decreases |hotspots|
  {
    if hotspots != [] {
      var n := |hotspots| - 1;
      TitleMapKeys(hotspots[..n], ideasOf);
      assert hotspots == hotspots[..n] + [hotspots[n]];
      assert forall h :: h in hotspots <==> h in hotspots[..n] || h == hotspots[n];
    }
  }

  lemma {:induction false} TitleMapLastWriter(hotspots: seq<Item>, ideasOf: (Item, nat) -> seq<Idea>, i: nat)
    requires i < |hotspots|
    requires forall j :: i < j < |hotspots| ==> TitleKey(hotspots[j]) != TitleKey(hotspots[i])
    ensures TitleKey(hotspots[i]) in TitleMap(hotspots, ideasOf)
    ensures TitleMap(hotspots, ideasOf)[TitleKey(hotspots[i])] == ideasOf(hotspots[i], i)
    decreases |hotspots|
  {
    var n := |hotspots| - 1;
    if i < n {
      var init := hotspots[..n];
      assert init[i] == hotspots[i];
      forall j | i < j < |init| ensures TitleKey(init[j]) != TitleKey(init[i]) {
        assert init[j] == hotspots[j];
      }
      TitleMapLastWriter(init, ideasOf, i);
    }
  }

  /** The map generate_for_top10 returns, when its first request is call
      number base: each hotspot's ideas stored under its title, in order. */
  function IdeaMap(client: Client, hotspots: seq<Item>, replies: seq<Reply>, base: nat,
                   parse: string -> Option<Payload>): map<string, seq<Idea>>
    decreases |hotspots|
  {
    if hotspots == [] then map[]
    else
      var n := |hotspots| - 1;
      IdeaMap(client, hotspots[..n], replies, base, parse)[TitleKey(hotspots[n]) :=
        HotspotIdeas(client, hotspots[n], replies, base + n, parse)]
  }

  /** IdeaMap is the title map of the generation outcomes. */
  lemma {:induction false} IdeaMapIsTitleMap(client: Client, hotspots: seq<Item>, replies: seq<Reply>, base: nat,
                                             parse: string -> Option<Payload>)
    ensures IdeaMap(client, hotspots, replies, base, parse) ==
              TitleMap(hotspots, (h: Item, k: nat) => HotspotIdeas(client, h, replies, base + k, parse))
    decreases |hotspots|
  {
    if hotspots != [] {
      IdeaMapIsTitleMap(client, hotspots[..|hotspots| - 1], replies, base, parse);
    }
  }

  /** The keys are exactly the titles of the hotspots (a missing title is ""). */
  lemma IdeaMapKeys(client: Client, hotspots: seq<Item>, replies: seq<Reply>, base: nat,
                    parse: string -> Option<Payload>)
    ensures IdeaMap(client, hotspots, replies, base, parse).Keys == set h | h in hotspots :: TitleKey(h)
  {
    IdeaMapIsTitleMap(client, hotspots, replies, base, parse);
    TitleMapKeys(hotspots, (h: Item, k: nat) => HotspotIdeas(client, h, replies, base + k, parse));
  }

  /** The last hotspot with a title decides its entry: a later hotspot with
      the same title overwrites an earlier one. */
  lemma IdeaMapLastWriter(client: Client, hotspots: seq<Item>, replies: seq<Reply>, base: nat,
                          parse: string -> Option<Payload>, i: nat)
    requires i < |hotspots|
    requires forall j :: i < j < |hotspots| ==> TitleKey(hotspots[j]) != TitleKey(hotspots[i])
    ensures TitleKey(hotspots[i]) in IdeaMap(client, hotspots, replies, base, parse)
    ensures IdeaMap(client, hotspots, replies, base, parse)[TitleKey(hotspots[i])] ==
              HotspotIdeas(client, hotspots[i], replies, base + i, parse)
  {
    IdeaMapIsTitleMap(client, hotspots, replies, base, parse);
    TitleMapLastWriter(hotspots, (h: Item, k: nat) => HotspotIdeas(client, h, replies, base + k, parse), i);
  }

  lemma IdeaMapStep(client: Client, hotspots: seq<Item>, replies: seq<Reply>, base: nat,
                    parse: string -> Option<Payload>, i: nat)
    requires i < |hotspots|
    ensures IdeaMap(client, hotspots[..i + 1], replies, base, parse) ==
              IdeaMap(client, hotspots[..i], replies, base, parse)[TitleKey(hotspots[i]) :=
                HotspotIdeas(client, hotspots[i], replies, base + i, parse)]
  {
    var upTo := hotspots[..i + 1];
    assert upTo[..i] == hotspots[..i];
    assert upTo[i] == hotspots[i];
    assert |upTo| - 1 == i;
  }

  lemma StoreIdeas(client: Client, hotspots: seq<Item>, replies: seq<Reply>, base: nat,
                   parse: string -> Option<Payload>, i: nat, k: nat,
                   results: map<string, seq<Idea>>, ideas: seq<Idea>)
    requires i < |hotspots|
    requires client.Client? ==> k == base + i
    requires results == IdeaMap(client, hotspots[..i], replies, base, parse)
    requires ideas == HotspotIdeas(client, hotspots[i], replies, k, parse)
    ensures results[TitleKey(hotspots[i]) := ideas] == IdeaMap(client, hotspots[..i + 1], replies, base, parse)
  {
    IdeaMapStep(client, hotspots, replies, base, parse, i);
    HotspotIdeasAnyCall(client, hotspots[i], replies, k, base + i, parse);
  }

  lemma IdeaRequestsStep(hotspots: seq<Item>, i: nat)
    requires i < |hotspots|
    ensures IdeaRequests(hotspots[..i + 1]) == IdeaRequests(hotspots[..i]) + [IdeaRequest(hotspots[i])]
  {
    assert hotspots[..i + 1][..i] == hotspots[..i];
  }

  /** The generator: the client chosen at construction. */
  class IdeaGenerator {
    var client: Client

    constructor (env: Env, builds: ProviderKind -> bool)
      ensures client == SelectClient(env, builds)
    {
      client := NoClient;
      new;
      InitClient(env, builds);
    }

    /** _init_client: the proxy first, then SiliconFlow, then no client. */
    method InitClient(env: Env, builds: ProviderKind -> bool)
      modifies this
      ensures client == SelectClient(env, builds)
    {
      if Truthy(env.proxyKey) && Truthy(env.proxyBase) {
        if builds(OpenAIProxy) {
          client := Client(OpenAIProxy, env.proxyModel.GetOr(DefaultProxyModel));
          return;
        }
      }
      if Truthy(env.siliconflowKey) {
        if builds(SiliconFlow) {
          client := Client(SiliconFlow, env.siliconflowModel.GetOr(DefaultSiliconflowModel));
          return;
        }
      }
      client := NoClient;
    }

    /** generate_for_hotspot: the fallback and no call without a client;
        otherwise one request and the outcome of its reply. */
    method GenerateForHotspot(hotspot: Item, llm: Service, parse: string -> Option<Payload>)
      returns (ideas: seq<Idea>)
      modifies llm
      ensures client.NoClient? ==> llm.log == old(llm.log)
      ensures client.Client? ==> llm.log == old(llm.log) + [IdeaRequest(hotspot)]
      ensures ideas == HotspotIdeas(client, hotspot, llm.replies, |old(llm.log)|, parse)
    {
      if client.NoClient? {
        return FallbackIdeas(hotspot);
      }
      var title := TitleKey(hotspot);
      var summary := SummaryOf(hotspot);
      var category := CategoryOf(hotspot);
      var reply := llm.Complete(IdeaPrompt(MaxIdeas, title, category, summary));
      if reply.Failure? {
        return FallbackIdeas(hotspot);
      }
      var content := Strip(reply.content);
      content := StripFence(content);
      var data := parse(content);
      if data.None? {
        return FallbackIdeas(hotspot);
      }
      ideas := FormatIdeas(data.value.ideas.GetOr([]), MaxIdeas);
    }

    /** One turn of the generate_for_top10 loop: the i-th hotspot's ideas
        are generated and stored under its title. */
    method GenerateNext(hotspots: seq<Item>, i: nat, results: map<string, seq<Idea>>, llm: Service,
                        parse: string -> Option<Payload>, ghost base: nat)
      returns (next: map<string, seq<Idea>>)
      requires i < |hotspots|
      requires client.Client? ==> |llm.log| == base + i
      requires results == IdeaMap(client, hotspots[..i], llm.replies, base, parse)
      modifies llm
      ensures client.NoClient? ==> llm.log == old(llm.log)
      ensures client.Client? ==> llm.log == old(llm.log) + [IdeaRequest(hotspots[i])]
      ensures next == IdeaMap(client, hotspots[..i + 1], llm.replies, base, parse)
    {
      ghost var k := |llm.log|;
      var ideas := GenerateForHotspot(hotspots[i], llm, parse);
      StoreIdeas(client, hotspots, llm.replies, base, parse, i, k, results, ideas);
      next := results[TitleKey(hotspots[i]) := ideas];
    }

    /** generate_for_top10: one generation per hotspot, in order, each stored
        under the hotspot's title. */
    method GenerateForTop10(hotspots: seq<Item>, llm: Service, parse: string -> Option<Payload>)
      returns (results: map<string, seq<Idea>>)
      modifies llm
      ensures client.NoClient? ==> llm.log == old(llm.log)
      ensures client.Client? ==> llm.log == old(llm.log) + IdeaRequests(hotspots)
      ensures results == IdeaMap(client, hotspots, llm.replies, |old(llm.log)|, parse)
    {
      ghost var base := |llm.log|;
      results := map[];
      for i := 0 to |hotspots|
        invariant client.NoClient? ==> llm.log == old(llm.log)
        invariant client.Client? ==> llm.log == old(llm.log) + IdeaRequests(hotspots[..i])
        invariant results == IdeaMap(client, hotspots[..i], llm.replies, base, parse)
      {
        IdeaRequestsOrder(hotspots[..i]);
        results := GenerateNext(hotspots, i, results, llm, parse, base);
        if client.Client? {
          IdeaRequestsStep(hotspots, i);
          AppendAssoc(old(llm.log), IdeaRequests(hotspots[..i]), [IdeaRequest(hotspots[i])]);
        }
      }
      WholeSlice(hotspots);
    }
  }
}
