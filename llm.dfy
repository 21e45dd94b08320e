/**
 * The completion orchestrator: the adapter registry and `streamChat`,
 * which drives an adapter's token stream, keeps the running total, hands
 * the cumulative text to the callback after every token and stops when the
 * cancellation signal is found set.
 */
module Llm {
  import opened Wrappers
  import opened Text
  import opened Types
  import opened JsonValue
  import Adapters
  import Sse

  datatype Adapter = OpenAI | Groq | DeepSeek | Anthropic | Gemini

  /** `getAdapter(providerId)`. */
  function GetAdapter(providerId: string): (r: Result<Adapter, Error>)
    ensures r.Failure? <==> providerId !in {"openai", "groq", "deepseek", "anthropic", "gemini"}
    ensures r.Failure? ==> r.error == Thrown("Provider " + providerId + " not implemented")
  {
    match providerId
    case "openai" => Success(OpenAI)
    case "groq" => Success(Groq)
    case "deepseek" => Success(DeepSeek)
    case "anthropic" => Success(Anthropic)
    case "gemini" => Success(Gemini)
    case _ => Failure(Thrown("Provider " + providerId + " not implemented"))
  }

  /** The provider id each adapter is registered under. */
  function AdapterId(adapter: Adapter): string
  {
    match adapter
    case OpenAI => "openai"
    case Groq => "groq"
    case DeepSeek => "deepseek"
    case Anthropic => "anthropic"
    case Gemini => "gemini"
  }

  /**
   * What `adapter.chat(...)` settles to. The DeepSeek adapter's source is
   * not part of this model, so its outcome is supplied by the caller.
   */
  function AdapterChat(adapter: Adapter, deepSeek: Result<seq<string>, Error>, messages: seq<Message>,
                       config: ModelConfig, apiKey: string, fetch: Adapters.Fetch,
                       parse: string -> Option<Json>): Result<seq<string>, Error>
  {
    match adapter
    case OpenAI => Adapters.OpenAIChat(messages, config, apiKey, fetch, parse)
    case Groq => Adapters.GroqChat(messages, config, apiKey, fetch, parse)
    case DeepSeek => deepSeek
    case Anthropic => Adapters.AnthropicChat(messages, config, apiKey, fetch, parse)
    case Gemini => Adapters.GeminiChat(messages, config, apiKey, fetch, parse)
  }

  /**
   * How many tokens the loop consumes: all of them, unless the signal is
   * found aborted when token `k` arrives, in which case tokens 0..k-1.
   */
  function Consumed(count: nat, abortAt: Option<nat>): (n: nat)
    ensures n <= count
  {
    if abortAt.Some? && abortAt.value < count then abortAt.value else count
  }

  /** The argument of each `onToken` call: the running total after each token. */
  function Cumulative(tokens: seq<string>): (updates: seq<string>)
    ensures |updates| == |tokens|
  {
    seq(|tokens|, i requires 0 <= i < |tokens| => Concat(tokens[..i + 1]))
  }

  /** The outcome of one streamChat call: the value it settles to and the callback arguments, in order. */
  datatype StreamOutcome = StreamOutcome(result: Result<string, Error>, updates: seq<string>)

  /**
   * streamChat, as a function of the provider id, what `chat` settles to
   * for the selected adapter, and when the signal is found aborted.
   */
  function StreamChatSpec(providerId: string, chat: Adapter -> Result<seq<string>, Error>,
                          abortAt: Option<nat>): StreamOutcome
  {
    match GetAdapter(providerId)
    case Failure(e) => StreamOutcome(Failure(e), [])
    case Success(adapter) =>
      match chat(adapter)
      case Failure(e) => StreamOutcome(Failure(e), [])
      case Success(tokens) =>
        var n := Consumed(|tokens|, abortAt);
        StreamOutcome(Success(Concat(tokens[..n])), Cumulative(tokens[..n]))
  }

  /**
   * `streamChat(messages, config, apiKey, onToken, signal)`. `chat`
   * stands for `adapter.chat(messages, config, apiKey, signal)`; the
   * out-parameter `updates` lists the `onToken` calls.
   */
  method StreamChat(providerId: string, chat: Adapter -> Result<seq<string>, Error>, abortAt: Option<nat>)
    returns (result: Result<string, Error>, updates: seq<string>)
    ensures StreamOutcome(result, updates) == StreamChatSpec(providerId, chat, abortAt)
  {
    updates := [];
    var adapter := GetAdapter(providerId);
    if adapter.Failure? {
      return Failure(adapter.error), updates;
    }
    var generator := chat(adapter.value);
    if generator.Failure? {
      return Failure(generator.error), updates;
    }
    var tokens := generator.value;
    var fullContent := "";
    var i := 0;
    while i < |tokens|
      invariant 0 <= i <= Consumed(|tokens|, abortAt)
      invariant fullContent == Concat(tokens[..i])
      invariant updates == Cumulative(tokens[..i])
    {
      if abortAt == Some(i) {
        break;
      }
      assert tokens[..i + 1] == tokens[..i] + [tokens[i]];
      ConcatSnoc(tokens[..i], tokens[i]);
      CumulativeSnoc(tokens[..i], tokens[i]);
      fullContent := fullContent + tokens[i];
      updates := updates + [fullContent];
      i := i + 1;
    }
    assert i == Consumed(|tokens|, abortAt);
    result := Success(fullContent);
  }

  lemma CumulativeSnoc(tokens: seq<string>, token: string)
    ensures Cumulative(tokens + [token]) == Cumulative(tokens) + [Concat(tokens + [token])]
  {
    var extended := tokens + [token];
    forall i | 0 <= i < |tokens| ensures Cumulative(extended)[i] == Cumulative(tokens)[i] {
      assert extended[..i + 1] == tokens[..i + 1];
    }
    assert extended[..|extended|] == extended;
  }

  // ----------------------------------------------------------------- lemmas

  /** The registry knows exactly five ids; "custom" and anything else is a configuration error. */
  lemma RegistryIds(providerId: string)
    ensures GetAdapter("custom") == Failure(Thrown("Provider custom not implemented"))
    ensures GetAdapter(providerId).Success? ==> AdapterId(GetAdapter(providerId).value) == providerId
  {
    assert "Provider " + "custom" + " not implemented" == "Provider custom not implemented";
  }

  /** The i-th callback receives the concatenation of the first i+1 tokens, and each adds exactly its token. */
  lemma CumulativePrefixes(tokens: seq<string>, i: nat)
    requires i < |tokens|
    ensures Cumulative(tokens)[i] == Concat(tokens[..i + 1])
    ensures i > 0 ==> Cumulative(tokens)[i] == Cumulative(tokens)[i - 1] + tokens[i]
    ensures tokens[i] == "" && i > 0 ==> Cumulative(tokens)[i] == Cumulative(tokens)[i - 1]
  {
    if i > 0 {
      assert tokens[..i + 1] == tokens[..i] + [tokens[i]];
      ConcatSnoc(tokens[..i], tokens[i]);
    }
  }

  /** The settled value is the last callback argument, or "" when no token was consumed. */
  lemma ResultIsLastUpdate(providerId: string, chat: Adapter -> Result<seq<string>, Error>, abortAt: Option<nat>)
    requires StreamChatSpec(providerId, chat, abortAt).result.Success?
    ensures var out := StreamChatSpec(providerId, chat, abortAt);
      out.result.value == if out.updates == [] then "" else out.updates[|out.updates| - 1]
  {
    var tokens := chat(GetAdapter(providerId).value).value;
    var n := Consumed(|tokens|, abortAt);
    if n > 0 {
      assert tokens[..n][..n] == tokens[..n];
    }
  }

  /**
   * A token that arrives once the signal is aborted is neither appended nor
   * reported: the outcome is the one of the stream cut just before it.
   */
  lemma AbortCutsStream(providerId: string, chat: Adapter -> Result<seq<string>, Error>, k: nat)
    requires GetAdapter(providerId).Success? && chat(GetAdapter(providerId).value).Success?
    requires k <= |chat(GetAdapter(providerId).value).value|
    ensures var tokens := chat(GetAdapter(providerId).value).value;
      StreamChatSpec(providerId, chat, Some(k))
        == StreamOutcome(Success(Concat(tokens[..k])), Cumulative(tokens[..k]))
    ensures |StreamChatSpec(providerId, chat, Some(k)).updates| == k
  {
  }

  /** Errors from the registry or from `chat` propagate unchanged, and no callback happens. */
  lemma ErrorsPropagate(providerId: string, chat: Adapter -> Result<seq<string>, Error>, abortAt: Option<nat>)
    ensures GetAdapter(providerId).Failure? ==>
      StreamChatSpec(providerId, chat, abortAt) == StreamOutcome(Failure(GetAdapter(providerId).error), [])
    ensures GetAdapter(providerId).Success? && chat(GetAdapter(providerId).value).Failure? ==>
      StreamChatSpec(providerId, chat, abortAt)
        == StreamOutcome(Failure(chat(GetAdapter(providerId).value).error), [])
  {
  }

  /**
   * streamChat over the real OpenAI adapter: with a key and an ok response,
   * the callbacks receive the running totals of the tokens decoded from the
   * response body's chunks, cut where the signal is found aborted.
   */
  lemma OpenAIStreamDelivers(messages: seq<Message>, config: ModelConfig, apiKey: string, fetch: Adapters.Fetch,
                             parse: string -> Option<Json>, deepSeek: Result<seq<string>, Error>,
                             chunks: seq<string>, abortAt: Option<nat>)
    requires apiKey != ""
    requires fetch(Adapters.OpenAIRequest(messages, config)).Success?
    requires fetch(Adapters.OpenAIRequest(messages, config)).value.ok
    requires fetch(Adapters.OpenAIRequest(messages, config)).value.body == Some(chunks)
    ensures var tokens := Sse.StreamTokens(Sse.ChatCompletionsFrames, parse, Concat(chunks));
      var n := Consumed(|tokens|, abortAt);
      StreamChatSpec("openai", a => AdapterChat(a, deepSeek, messages, config, apiKey, fetch, parse), abortAt)
        == StreamOutcome(Success(Concat(tokens[..n])), Cumulative(tokens[..n]))
  {
  }
}
