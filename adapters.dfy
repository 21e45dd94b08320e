/**
 * The four provider adapters whose source is modelled (OpenAI, Groq,
 * Anthropic, Gemini). Each `chat` checks the key, maps the canonical
 * messages into the vendor's request, issues one POST, turns a failed
 * response into an error, and decodes the streamed body with the shared
 * line decoder. The network is the `fetch` parameter: it receives the
 * request and answers with a response or rejects with an error.
 */
module Adapters {
  import opened Wrappers
  import opened Text
  import opened Types
  import opened JsonValue
  import opened Sse

  datatype WireMessage = WireMessage(role: string, content: string)

  datatype GeminiPart = GeminiPart(text: string)

  datatype GeminiContent = GeminiContent(role: string, parts: seq<GeminiPart>)

  /** The JSON bodies the adapters send; a None field is left out of the JSON. */
  datatype RequestBody =
    | ChatCompletionsBody(model: string, messages: seq<WireMessage>, temperature: Option<real>, stream: bool)
    | MessagesBody(model: string, maxTokens: nat, messages: seq<WireMessage>, system: Option<string>, stream: bool)
    | GenerateContentBody(contents: seq<GeminiContent>, temperature: Option<real>)

  datatype Request = Request(url: string, body: RequestBody)

  /**
   * What `fetch` resolves to: whether the status is 2xx, what
   * `response.json()` would give on the error path, and the body as
   * decoded text chunks (None when there is no body).
   */
  datatype HttpResponse = HttpResponse(ok: bool, errorJson: Result<Json, Error>, body: Option<seq<string>>)

  type Fetch = Request -> Result<HttpResponse, Error>

  const OpenAIUrl: string := "https://api.openai.com/v1/chat/completions"
  const GroqUrl: string := "https://api.groq.com/openai/v1/chat/completions"
  const AnthropicUrl: string := "https://api.anthropic.com/v1/messages"
  const AnthropicMaxTokens: nat := 4096

  // ---------------------------------------------------------------- mapping

  /** `messages.map(m => ({ role: m.role, content: m.content }))`. */
  function PassThrough(messages: seq<Message>): (wire: seq<WireMessage>)
    ensures |wire| == |messages|
    ensures forall k :: 0 <= k < |messages| ==>
      wire[k] == WireMessage(RoleName(messages[k].role), messages[k].content)
  {
    seq(|messages|, k requires 0 <= k < |messages| => WireMessage(RoleName(messages[k].role), messages[k].content))
  }

  /** Model ids of the reasoning tier reject a temperature. */
  predicate IsReasoningModel(modelId: string)
  {
    StartsWith(modelId, "o1") || StartsWith(modelId, "o3")
  }

  function OpenAIRequest(messages: seq<Message>, config: ModelConfig): Request
  {
    Request(OpenAIUrl, ChatCompletionsBody(
      config.modelId,
      PassThrough(messages),
      if IsReasoningModel(config.modelId) then None else config.temperature,
      true))
  }

  function GroqRequest(messages: seq<Message>, config: ModelConfig): Request
  {
    Request(GroqUrl, ChatCompletionsBody(config.modelId, PassThrough(messages), config.temperature, true))
  }

  /** `messages.filter(m => m.role !== 'system').map(m => ({ role: assistant ? 'assistant' : 'user', ... }))`. */
  function AnthropicTurns(messages: seq<Message>): seq<WireMessage>
  {
    if messages == [] then []
    else if messages[0].role == System then AnthropicTurns(messages[1..])
    else
      [WireMessage(AnthropicRole(messages[0].role), messages[0].content)] + AnthropicTurns(messages[1..])
  }

  /** Message `k` is the first system message. */
  predicate FirstSystemAt(messages: seq<Message>, k: int)
  {
    0 <= k < |messages| && messages[k].role == System && forall j :: 0 <= j < k ==> messages[j].role != System
  }

  /** `messages.find(m => m.role === 'system')?.content`. */
  function FirstSystemContent(messages: seq<Message>): (content: Option<string>)
    ensures content.None? <==> forall k :: 0 <= k < |messages| ==> messages[k].role != System
    ensures content.Some? ==> exists k :: FirstSystemAt(messages, k) && messages[k].content == content.value
  {
    if messages == [] then None
    else if messages[0].role == System then
      assert FirstSystemAt(messages, 0);
      Some(messages[0].content)
    else
      var content := FirstSystemContent(messages[1..]);
      assert content.Some? ==> exists k :: FirstSystemAt(messages, k) && messages[k].content == content.value by {
        if content.Some? {
          var k :| FirstSystemAt(messages[1..], k) && messages[1..][k].content == content.value;
          assert messages[k + 1] == messages[1..][k];
          forall j | 0 <= j < k + 1 ensures messages[j].role != System {
            if j > 0 { assert messages[j] == messages[1..][j - 1]; }
          }
          assert FirstSystemAt(messages, k + 1);
        }
      }
      content
  }

  function AnthropicRequest(messages: seq<Message>, config: ModelConfig): Request
  {
    var system := FirstSystemContent(messages);
    Request(AnthropicUrl, MessagesBody(
      config.modelId,
      AnthropicMaxTokens,
      AnthropicTurns(messages),
      if system.Some? && system.value != "" then system else None,
      true))
  }

  /** `messages.map(m => ({ role: assistant ? 'model' : 'user', parts: [{ text: m.content }] }))`. */
  function GeminiContents(messages: seq<Message>): (contents: seq<GeminiContent>)
    ensures |contents| == |messages|
  {
    seq(|messages|, k requires 0 <= k < |messages| =>
      GeminiContent(if messages[k].role == Assistant then "model" else "user", [GeminiPart(messages[k].content)]))
  }

  const GeminiModelsUrl: string := "https://generativelanguage.googleapis.com/v1beta/models/"
  const GeminiStreamQuery: string := ":streamGenerateContent?key="
  const SseParameter: string := "&alt=sse"

  function GeminiUrl(modelId: string, apiKey: string): string
  {
    GeminiModelsUrl + modelId + GeminiStreamQuery + apiKey + SseParameter
  }

  function GeminiRequest(messages: seq<Message>, config: ModelConfig, apiKey: string): Request
  {
    Request(GeminiUrl(config.modelId, apiKey), GenerateContentBody(GeminiContents(messages), config.temperature))
  }

  // --------------------------------------------------------------- response

  /**
   * `throw new Error(err.error?.message || fallback)` after
   * `err = await response.json()`: a body that is not JSON rejects
   * `response.json()` and that error propagates; a JSON `null` body makes
   * `err.error` throw.
   */
  function ApiError(errorJson: Result<Json, Error>, fallback: string): Error
  {
    match errorJson
    case Failure(e) => e
    case Success(err) =>
      match Get(Some(err), "error")
      case Throws => NullAccessError("error")
      case Yields(detail) => Thrown(TextOr(GetOpt(detail, "message"), fallback))
  }

  /** The part of `chat` after `fetch`: status check, body check, then the token stream. */
  function Respond(fetched: Result<HttpResponse, Error>, fallback: string, dialect: Dialect,
                   parse: string -> Option<Json>): Result<seq<string>, Error>
  {
    match fetched
    case Failure(e) => Failure(e)
    case Success(response) =>
      if !response.ok then Failure(ApiError(response.errorJson, fallback))
      else if response.body.None? then Failure(Thrown("No response body"))
      else Success(StreamTokens(dialect, parse, Concat(response.body.value)))
  }

  // ------------------------------------------------------------------- chat

  function OpenAIChat(messages: seq<Message>, config: ModelConfig, apiKey: string, fetch: Fetch,
                      parse: string -> Option<Json>): Result<seq<string>, Error>
  {
    if apiKey == "" then Failure(Thrown("API Key required for OpenAI"))
    else Respond(fetch(OpenAIRequest(messages, config)), "OpenAI API Error", ChatCompletionsFrames, parse)
  }

  function GroqChat(messages: seq<Message>, config: ModelConfig, apiKey: string, fetch: Fetch,
                    parse: string -> Option<Json>): Result<seq<string>, Error>
  {
    if apiKey == "" then Failure(Thrown("API Key required for Groq. Get a free key at console.groq.com"))
    else Respond(fetch(GroqRequest(messages, config)), "Groq API Error", ChatCompletionsFrames, parse)
  }

  function AnthropicChat(messages: seq<Message>, config: ModelConfig, apiKey: string, fetch: Fetch,
                         parse: string -> Option<Json>): Result<seq<string>, Error>
  {
    if apiKey == "" then Failure(Thrown("API Key required for Anthropic"))
    else Respond(fetch(AnthropicRequest(messages, config)), "Anthropic API Error", AnthropicFrames, parse)
  }

  function GeminiChat(messages: seq<Message>, config: ModelConfig, apiKey: string, fetch: Fetch,
                      parse: string -> Option<Json>): Result<seq<string>, Error>
  {
    if apiKey == "" then Failure(Thrown("API Key required for Gemini"))
    else Respond(fetch(GeminiRequest(messages, config, apiKey)), "Gemini API Error", GeminiFrames, parse)
  }

  // ----------------------------------------------------------------- lemmas

  /** Every adapter refuses an empty key before it sends anything: the outcome does not depend on the network. */
  lemma EmptyKeyRejected(messages: seq<Message>, config: ModelConfig, fetch: Fetch, parse: string -> Option<Json>)
    ensures OpenAIChat(messages, config, "", fetch, parse) == Failure(Thrown("API Key required for OpenAI"))
    ensures GroqChat(messages, config, "", fetch, parse)
         == Failure(Thrown("API Key required for Groq. Get a free key at console.groq.com"))
    ensures AnthropicChat(messages, config, "", fetch, parse) == Failure(Thrown("API Key required for Anthropic"))
    ensures GeminiChat(messages, config, "", fetch, parse) == Failure(Thrown("API Key required for Gemini"))
  {
  }

  /** OpenAI sends the configured temperature exactly when the model id is not of the o1/o3 tier; Groq always does. */
  lemma TemperatureRule(messages: seq<Message>, config: ModelConfig)
    ensures IsReasoningModel(config.modelId) ==> OpenAIRequest(messages, config).body.temperature.None?
    ensures !IsReasoningModel(config.modelId) ==> OpenAIRequest(messages, config).body.temperature == config.temperature
    ensures GroqRequest(messages, config).body.temperature == config.temperature
  {
  }

  /**
   * For every model id: it is of the o1/o3 tier exactly when its first two
   * characters are `o` followed by `1` or `3`, whatever comes after them.
   */
  lemma ReasoningTier(modelId: string)
    ensures IsReasoningModel(modelId)
      <==> |modelId| >= 2 && modelId[0] == 'o' && (modelId[1] == '1' || modelId[1] == '3')
  {
    if |modelId| >= 2 {
      assert modelId[..2] == [modelId[0], modelId[1]];
    }
  }

  /** The non-system messages, in their original order. */
  function WithoutSystem(messages: seq<Message>): (kept: seq<Message>)
    ensures |kept| <= |messages|
    ensures forall k :: 0 <= k < |kept| ==> kept[k].role != System
    ensures forall m :: m in messages && m.role != System ==> m in kept
    ensures forall m :: m in kept ==> m in messages
  {
    if messages == [] then []
    else if messages[0].role == System then WithoutSystem(messages[1..])
    else [messages[0]] + WithoutSystem(messages[1..])
  }

  /** The filter distributes over concatenation, so the kept messages keep their order and count. */
  lemma {:induction false} WithoutSystemAppend(a: seq<Message>, b: seq<Message>)
    ensures WithoutSystem(a + b) == WithoutSystem(a) + WithoutSystem(b)
    decreases |a|
  {
    if a == [] {
      assert a + b == b;
    } else {
      assert (a + b)[1..] == a[1..] + b;
      WithoutSystemAppend(a[1..], b);
    }
  }

  /** A conversation without system messages is kept whole. */
  lemma {:induction false} WithoutSystemNone(messages: seq<Message>)
    requires forall k :: 0 <= k < |messages| ==> messages[k].role != System
    ensures WithoutSystem(messages) == messages
    decreases |messages|
  {
    if messages != [] {
      WithoutSystemNone(messages[1..]);
      assert [messages[0]] + messages[1..] == messages;
    }
  }

  /** Anthropic's role for a non-system turn. */
  function AnthropicRole(role: Role): string
  {
    if role == Assistant then "assistant" else "user"
  }

  /**
   * Anthropic's turn list is the non-system messages in order, with
   * `assistant` kept and every other role sent as `user`.
   */
  lemma AnthropicTurnsShape(messages: seq<Message>)
    ensures |AnthropicTurns(messages)| == |WithoutSystem(messages)|
    ensures forall k :: 0 <= k < |AnthropicTurns(messages)| ==>
      AnthropicTurns(messages)[k]
        == WireMessage(AnthropicRole(WithoutSystem(messages)[k].role), WithoutSystem(messages)[k].content)
  {
    AnthropicTurnsLength(messages);
    forall k | 0 <= k < |AnthropicTurns(messages)|
      ensures AnthropicTurns(messages)[k]
        == WireMessage(AnthropicRole(WithoutSystem(messages)[k].role), WithoutSystem(messages)[k].content)
    {
      AnthropicTurnAt(messages, k);
    }
  }

  /** One turn per kept message. */
  lemma {:induction false} AnthropicTurnsLength(messages: seq<Message>)
    ensures |AnthropicTurns(messages)| == |WithoutSystem(messages)|
    decreases |messages|
  {
    if messages != [] {
      AnthropicTurnsLength(messages[1..]);
    }
  }

  /** Turn `k` is kept message `k` with its Anthropic role. */
  lemma {:induction false} AnthropicTurnAt(messages: seq<Message>, k: nat)
    requires k < |WithoutSystem(messages)|
    ensures k < |AnthropicTurns(messages)|
    ensures AnthropicTurns(messages)[k]
      == WireMessage(AnthropicRole(WithoutSystem(messages)[k].role), WithoutSystem(messages)[k].content)
    decreases |messages|
  {
    AnthropicTurnsLength(messages);
    if messages[0].role == System {
      AnthropicTurnAt(messages[1..], k);
    } else if k > 0 {
      AnthropicTurnAt(messages[1..], k - 1);
    }
  }

  /** With no system message, Anthropic's turns are exactly the messages OpenAI would send. */
  lemma {:induction false} AnthropicWithoutSystemIsPassThrough(messages: seq<Message>)
    requires forall k :: 0 <= k < |messages| ==> messages[k].role != System
    ensures AnthropicTurns(messages) == PassThrough(messages)
    decreases |messages|
  {
    if messages != [] {
      AnthropicWithoutSystemIsPassThrough(messages[1..]);
      assert PassThrough(messages) == [PassThrough(messages)[0]] + PassThrough(messages[1..]);
    }
  }

  /** The `system` field holds the first system message's content, and is absent when there is none or it is empty. */
  lemma AnthropicSystemField(messages: seq<Message>, config: ModelConfig)
    ensures var system := AnthropicRequest(messages, config).body.system;
      && (system.Some? <==> exists k :: FirstSystemAt(messages, k) && messages[k].content != "")
      && (forall k :: FirstSystemAt(messages, k) && messages[k].content != "" ==> system == Some(messages[k].content))
  {
    var first := FirstSystemContent(messages);
    forall k | FirstSystemAt(messages, k) ensures first == Some(messages[k].content) {
      var k' :| FirstSystemAt(messages, k') && messages[k'].content == first.value;
      assert k == k';
    }
  }

  /** Anthropic always asks for at most 4096 tokens and a stream, and has no temperature field to send. */
  lemma AnthropicBodyConstants(messages: seq<Message>, config: ModelConfig)
    ensures AnthropicRequest(messages, config).body.MessagesBody?
    ensures AnthropicRequest(messages, config).body.maxTokens == 4096
    ensures AnthropicRequest(messages, config).body.stream
  {
  }

  /** Gemini: one entry per message, in order, `model` for assistant turns and `user` for the rest, system included. */
  lemma GeminiContentsShape(messages: seq<Message>)
    ensures forall k :: 0 <= k < |messages| ==>
      && (GeminiContents(messages)[k].role == "model" <==> messages[k].role == Assistant)
      && (GeminiContents(messages)[k].role == "user" <==> messages[k].role != Assistant)
      && GeminiContents(messages)[k].parts == [GeminiPart(messages[k].content)]
  {
  }

  /** Gemini carries the model id in the path and the key in the query, and asks for server-sent events. */
  lemma GeminiUrlShape(messages: seq<Message>, config: ModelConfig, apiKey: string)
    ensures var url := GeminiRequest(messages, config, apiKey).url;
      && StartsWith(url, GeminiModelsUrl + config.modelId + GeminiStreamQuery + apiKey)
      && url[|url| - |SseParameter|..] == SseParameter
    ensures GeminiRequest(messages, config, apiKey).body.temperature == config.temperature
  {
    var url := GeminiRequest(messages, config, apiKey).url;
    var head := GeminiModelsUrl + config.modelId + GeminiStreamQuery + apiKey;
    assert url == head + SseParameter;
    assert url[..|head|] == head;
  }

  /**
   * A failed status reports the vendor's `error.message` when it is a
   * non-empty string, whatever other fields the error body carries.
   */
  lemma VendorMessageReported(fallback: string, message: string, fields: map<string, Json>, detail: map<string, Json>)
    requires "error" in fields && fields["error"] == JObject(detail)
    requires "message" in detail && detail["message"] == JString(message) && message != ""
    ensures ApiError(Success(JObject(fields)), fallback) == Thrown(message)
  {
  }

  /**
   * ... and the provider's fixed fallback when the body has no `error`, a
   * null `error`, or an `error` object without `message`.
   */
  lemma FallbackWithoutMessage(fallback: string, fields: map<string, Json>)
    requires "error" !in fields || fields["error"] == JNull
          || (fields["error"].JObject? && "message" !in fields["error"].fields)
    ensures ApiError(Success(JObject(fields)), fallback) == Thrown(fallback)
  {
  }

  /** An error body that is not JSON rejects `response.json()`, and that error propagates; a `null` body makes `err.error` throw. */
  lemma ErrorBodyUnreadable(fallback: string, e: Error)
    ensures ApiError(Failure(e), fallback) == e
    ensures ApiError(Success(JNull), fallback) == NullAccessError("error")
  {
  }

  /**
   * A non-ok status fails with the error read from the error body, whatever
   * the response body; a 2xx response without a body fails with a transport
   * error; a rejected fetch (abort included) propagates.
   */
  lemma ResponseFailures(fallback: string, dialect: Dialect, parse: string -> Option<Json>, errorJson: Result<Json, Error>,
                         body: Option<seq<string>>, e: Error)
    ensures Respond(Success(HttpResponse(true, errorJson, None)), fallback, dialect, parse) == Failure(Thrown("No response body"))
    ensures Respond(Success(HttpResponse(false, errorJson, body)), fallback, dialect, parse) == Failure(ApiError(errorJson, fallback))
    ensures Respond(Failure(e), fallback, dialect, parse) == Failure(e)
  {
  }
}
