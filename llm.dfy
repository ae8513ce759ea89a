/** The generative text service and the choice of provider. The service itself
    is an oracle: what it answers to the k-th request of a run is a parameter of
    the model, and every request made is recorded in order. */
module Llm {
  import opened Records

  /** The three kinds of request the pipeline sends, with the data each embeds. */
  datatype Prompt =
    | SummaryPrompt(title: string, content: string)
    | KeyPointsPrompt(title: string, content: string)
    | IdeaPrompt(count: nat, title: string, category: string, summary: string)

  /** The text of the first choice, or any failure (network, quota, missing content). */
  datatype Reply = Text(content: string) | Failure

  /** The reply to the k-th request of a run: replies[k], and a failure once
      the scripted replies run out. Since the requests of a run are determined
      by its inputs, a script indexed by request number covers every way the
      service can answer them. */
  function ReplyAt(replies: seq<Reply>, k: nat): Reply {
    if k < |replies| then replies[k] else Failure
  }

  /** A chat-completion client. */
  class Service {
    /** The replies the service gives, request by request. */
    const replies: seq<Reply>
    /** The requests made so far, in order. */
    var log: seq<Prompt>

    constructor (replies: seq<Reply>)
      ensures this.replies == replies && log == []
    {
      this.replies := replies;
      log := [];
    }

    /** One chat.completions.create call. */
    method Complete(p: Prompt) returns (r: Reply)
      modifies this
      ensures log == old(log) + [p]
      ensures r == ReplyAt(replies, |old(log)|)
    {
      r := ReplyAt(replies, |log|);
      log := log + [p];
    }
  }

  /** The environment variables the clients are configured from. */
  datatype Env = Env(
    proxyKey: Option<string>,
    proxyBase: Option<string>,
    proxyModel: Option<string>,
    siliconflowKey: Option<string>,
    siliconflowModel: Option<string>)

  datatype ProviderKind = OpenAIProxy | SiliconFlow

  /** The client a component ends up with: none, or a provider and its model name. */
  datatype Client = NoClient | Client(kind: ProviderKind, model: string)

  const DefaultProxyModel: string := "gemini-3-flash-preview"
  const DefaultSiliconflowModel: string := "Qwen/Qwen2.5-72B-Instruct"

  /** Python truthiness of os.getenv(...): set and not empty. */
  predicate Truthy(v: Option<string>) {
    v.Some? && v.value != ""
  }

  /** The provider priority rule: the proxy when both its key and base URL are
      set and its client can be built; otherwise SiliconFlow when its key is set
      and its client can be built; otherwise no client. `builds(k)` says whether
      constructing the client of provider k succeeds. */
  function SelectClient(env: Env, builds: ProviderKind -> bool): (c: Client)
    ensures c.Client? && c.kind == OpenAIProxy <==>
              Truthy(env.proxyKey) && Truthy(env.proxyBase) && builds(OpenAIProxy)
    ensures c.Client? && c.kind == SiliconFlow <==>
              !(Truthy(env.proxyKey) && Truthy(env.proxyBase) && builds(OpenAIProxy)) &&
              Truthy(env.siliconflowKey) && builds(SiliconFlow)
    ensures c.Client? && c.kind == OpenAIProxy ==> c.model == env.proxyModel.GetOr(DefaultProxyModel)
    ensures c.Client? && c.kind == SiliconFlow ==> c.model == env.siliconflowModel.GetOr(DefaultSiliconflowModel)
  {
    if Truthy(env.proxyKey) && Truthy(env.proxyBase) && builds(OpenAIProxy) then
      Client(OpenAIProxy, env.proxyModel.GetOr(DefaultProxyModel))
    else if Truthy(env.siliconflowKey) && builds(SiliconFlow) then
      Client(SiliconFlow, env.siliconflowModel.GetOr(DefaultSiliconflowModel))
    else
      NoClient
  }
}
