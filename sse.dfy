/**
 * The streaming decoder the four shown adapters share: text chunks are
 * appended to a buffer, complete lines are cut off at each line feed, and
 * every `data: ` line is parsed as JSON and turned into a token by a
 * provider-specific rule. This is the `data:` field framing of server-sent
 * events (WHATWG HTML Living Standard, section 9.2) reduced to what the
 * code handles: no `\r` stripping, no multi-line data, no other fields.
 */
module Sse {
  import opened Wrappers
  import opened Text
  import opened JsonValue

  const DataPrefix: string := "data: "
  const DoneSentinel: string := "[DONE]"
  const ContentBlockDelta: string := "content_block_delta"

  /** Which token rule and end-of-stream rule a provider's frames follow. */
  datatype Dialect =
    | ChatCompletionsFrames   // OpenAI and Groq: choices[0].delta.content, `[DONE]` ends the stream
    | AnthropicFrames         // only `content_block_delta` frames, delta.text
    | GeminiFrames            // candidates[0].content.parts[0].text

  /** What one complete line contributes. */
  datatype LineResult = Skip | Emit(token: string) | Stop

  /** `json.choices[0]?.delta?.content || ""`; None when the access throws. */
  function ChatCompletionsToken(json: Json): (token: Option<string>)
    ensures token.None? <==> json.JNull? || IsNullish(Property(json, "choices"))
  {
    match Get(Some(json), "choices")
    case Throws => None
    case Yields(choices) =>
      match Get(choices, "0")
      case Throws => None
      case Yields(first) => Some(TextOr(GetOpt(GetOpt(first, "delta"), "content"), ""))
  }

  /** `if (json.type === 'content_block_delta') yield json.delta?.text || ""`. */
  function AnthropicToken(json: Json): (token: Option<string>)
    ensures token.Some? <==> !json.JNull? && Property(json, "type") == Some(JString(ContentBlockDelta))
  {
    match Get(Some(json), "type")
    case Throws => None
    case Yields(kind) =>
      if kind == Some(JString(ContentBlockDelta))
      then Some(TextOr(GetOpt(Property(json, "delta"), "text"), ""))
      else None
  }

  /** `json.candidates?.[0]?.content?.parts?.[0]?.text || ""`. */
  function GeminiToken(json: Json): (token: Option<string>)
    ensures token.None? <==> json.JNull?
  {
    match Get(Some(json), "candidates")
    case Throws => None
    case Yields(candidates) =>
      Some(TextOr(GetOpt(GetOpt(GetOpt(GetOpt(GetOpt(candidates, "0"), "content"), "parts"), "0"), "text"), ""))
  }

  function FrameToken(dialect: Dialect, json: Json): Option<string>
  {
    match dialect
    case ChatCompletionsFrames => ChatCompletionsToken(json)
    case AnthropicFrames => AnthropicToken(json)
    case GeminiFrames => GeminiToken(json)
  }

  /** The handling of one complete line inside the `for (const line of lines)` loop. */
  function ClassifyLine(dialect: Dialect, parse: string -> Option<Json>, line: string): LineResult
  {
    if !StartsWith(line, DataPrefix) then Skip
    else
      var data := line[|DataPrefix|..];
      if dialect == ChatCompletionsFrames && data == DoneSentinel then Stop
      else match parse(data)
        case None => Skip
        case Some(json) =>
          match FrameToken(dialect, json)
          case None => Skip
          case Some(token) => Emit(token)
  }

  predicate HasStop(dialect: Dialect, parse: string -> Option<Json>, lines: seq<string>)
  {
    exists k :: 0 <= k < |lines| && ClassifyLine(dialect, parse, lines[k]) == Stop
  }

  /** The tokens a run of complete lines yields, up to the first line that stops the stream. */
  function LinesTokens(dialect: Dialect, parse: string -> Option<Json>, lines: seq<string>): seq<string>
  {
    if lines == [] then []
    else match ClassifyLine(dialect, parse, lines[0])
      case Stop => []
      case Skip => LinesTokens(dialect, parse, lines[1..])
      case Emit(token) => [token] + LinesTokens(dialect, parse, lines[1..])
  }

  /** What the generator yields for a stream whose chunks concatenate to `text`. */
  function StreamTokens(dialect: Dialect, parse: string -> Option<Json>, text: string): seq<string>
  {
    LinesTokens(dialect, parse, CompleteLines(text))
  }

  /** One more line, when no earlier line stopped the stream. */
  lemma {:induction false} LinesTokensSnoc(dialect: Dialect, parse: string -> Option<Json>, lines: seq<string>, line: string)
    requires !HasStop(dialect, parse, lines)
    ensures LinesTokens(dialect, parse, lines + [line]) ==
      LinesTokens(dialect, parse, lines) +
      match ClassifyLine(dialect, parse, line)
      case Emit(token) => [token]
      case _ => []
    decreases |lines|
  {
    if lines == [] {
      assert lines + [line] == [line];
    } else {
      assert (lines + [line])[1..] == lines[1..] + [line];
      assert ClassifyLine(dialect, parse, lines[0]) != Stop;
      assert !HasStop(dialect, parse, lines[1..]) by {
        forall k | 0 <= k < |lines[1..]| ensures ClassifyLine(dialect, parse, lines[1..][k]) != Stop {
          assert lines[1..][k] == lines[k + 1];
        }
      }
      LinesTokensSnoc(dialect, parse, lines[1..], line);
    }
  }

  /** Once a line has stopped the stream, nothing after it is decoded. */
  lemma {:induction false} LinesTokensAfterStop(dialect: Dialect, parse: string -> Option<Json>, lines: seq<string>, more: seq<string>)
    requires HasStop(dialect, parse, lines)
    ensures LinesTokens(dialect, parse, lines + more) == LinesTokens(dialect, parse, lines)
    decreases |lines|
  {
    assert lines != [];
    assert (lines + more)[0] == lines[0];
    assert (lines + more)[1..] == lines[1..] + more;
    if ClassifyLine(dialect, parse, lines[0]) != Stop {
      var k :| 0 <= k < |lines| && ClassifyLine(dialect, parse, lines[k]) == Stop;
      assert lines[1..][k - 1] == lines[k];
      LinesTokensAfterStop(dialect, parse, lines[1..], more);
    }
  }

  /**
   * The generator body of every shown adapter: read chunks until the reader
   * is done, keep the text after the last line feed in `buffer`, and decode
   * each chunk's complete lines; a stopping line returns at once.
   */
  method DecodeStream(dialect: Dialect, parse: string -> Option<Json>, chunks: seq<string>)
    returns (tokens: seq<string>)
    ensures tokens == StreamTokens(dialect, parse, Concat(chunks))
  {
    tokens := [];
    var buffer := "";
    ghost var processed: seq<string> := [];
    var i := 0;
    while i < |chunks|
      invariant 0 <= i <= |chunks|
      invariant Terminated(processed) + buffer == Concat(chunks[..i])
      invariant NoNewlines(processed) && '\n' !in buffer
      invariant !HasStop(dialect, parse, processed)
      invariant tokens == LinesTokens(dialect, parse, processed)
    {
      var received := buffer + chunks[i];
      var lines := CompleteLines(received);
      ChunkStep(chunks, i, processed, buffer);
      buffer := Leftover(received);
      var emitted, stopped := DecodeLines(dialect, parse, lines);
      LinesTokensAppend(dialect, parse, processed, lines);
      HasStopAppend(dialect, parse, processed, lines);
      NoNewlinesAppend(processed, lines);
      processed := processed + lines;
      tokens := tokens + emitted;
      if stopped {
        StopEndsStream(dialect, parse, chunks, i, processed, buffer);
        return;
      }
      i := i + 1;
    }
    assert chunks[..i] == chunks;
    LinesOfJoin(processed, buffer);
  }

  /** The inner `for (const line of lines)` loop: decodes the lines in order until one stops the stream. */
  method DecodeLines(dialect: Dialect, parse: string -> Option<Json>, lines: seq<string>)
    returns (tokens: seq<string>, stopped: bool)
    ensures tokens == LinesTokens(dialect, parse, lines)
    ensures stopped <==> HasStop(dialect, parse, lines)
  {
    tokens := [];
    var j := 0;
    while j < |lines|
      invariant 0 <= j <= |lines|
      invariant !HasStop(dialect, parse, lines[..j])
      invariant tokens == LinesTokens(dialect, parse, lines[..j])
    {
      var outcome := ClassifyLine(dialect, parse, lines[j]);
      if outcome == Stop {
        StopLine(dialect, parse, lines, j);
        return tokens, true;
      }
      LinesTokensSnoc(dialect, parse, lines[..j], lines[j]);
      HasStopAppend(dialect, parse, lines[..j], [lines[j]]);
      assert lines[..j + 1] == lines[..j] + [lines[j]];
      if outcome.Emit? {
        tokens := tokens + [outcome.token];
      }
      j := j + 1;
    }
    assert lines[..j] == lines;
    return tokens, false;
  }

  /** Appending chunk `i` to the buffer and cutting off its complete lines keeps the buffer invariant. */
  lemma ChunkStep(chunks: seq<string>, i: nat, before: seq<string>, held: string)
    requires i < |chunks|
    requires Terminated(before) + held == Concat(chunks[..i])
    ensures Terminated(before + CompleteLines(held + chunks[i])) + Leftover(held + chunks[i])
         == Concat(chunks[..i + 1])
  {
    var received := held + chunks[i];
    var lines := CompleteLines(received);
    SplitJoin(received);
    TerminatedAppend(before, lines);
    ConcatSnoc(chunks[..i], chunks[i]);
    assert chunks[..i + 1] == chunks[..i] + [chunks[i]];
    Regroup(Terminated(before), Terminated(lines), Leftover(received), held, chunks[i]);
  }

  /** Cutting the received text into lines and a leftover does not change what precedes it. */
  lemma Regroup(prefix: string, lines: string, rest: string, held: string, chunk: string)
    requires lines + rest == held + chunk
    ensures (prefix + lines) + rest == (prefix + held) + chunk
  {
    calc {
      (prefix + lines) + rest;
      prefix + (lines + rest);
      prefix + (held + chunk);
      (prefix + held) + chunk;
    }
  }

  /** A run of lines stops the stream exactly when one of its two parts does. */
  lemma HasStopAppend(dialect: Dialect, parse: string -> Option<Json>, a: seq<string>, b: seq<string>)
    ensures HasStop(dialect, parse, a + b) <==> HasStop(dialect, parse, a) || HasStop(dialect, parse, b)
  {
    var ab := a + b;
    if HasStop(dialect, parse, ab) {
      var k :| 0 <= k < |ab| && ClassifyLine(dialect, parse, ab[k]) == Stop;
      if k >= |a| {
        assert ab[k] == b[k - |a|];
      } else {
        assert ab[k] == a[k];
      }
    }
    if HasStop(dialect, parse, a) {
      var k :| 0 <= k < |a| && ClassifyLine(dialect, parse, a[k]) == Stop;
      assert ab[k] == a[k];
    }
    if HasStop(dialect, parse, b) {
      var k :| 0 <= k < |b| && ClassifyLine(dialect, parse, b[k]) == Stop;
      assert ab[|a| + k] == b[k];
    }
  }

  lemma NoNewlinesAppend(a: seq<string>, b: seq<string>)
    requires NoNewlines(a) && NoNewlines(b)
    ensures NoNewlines(a + b)
  {
    forall k | 0 <= k < |a + b| ensures '\n' !in (a + b)[k] {
      if k >= |a| { assert (a + b)[k] == b[k - |a|]; }
    }
  }

  /** When line `j` is the first that stops the stream, the lines decode to the tokens before it. */
  lemma StopLine(dialect: Dialect, parse: string -> Option<Json>, lines: seq<string>, j: nat)
    requires j < |lines|
    requires !HasStop(dialect, parse, lines[..j])
    requires ClassifyLine(dialect, parse, lines[j]) == Stop
    ensures HasStop(dialect, parse, lines)
    ensures LinesTokens(dialect, parse, lines) == LinesTokens(dialect, parse, lines[..j])
  {
    var head := lines[..j + 1];
    assert head == lines[..j] + [lines[j]];
    assert lines == head + lines[j + 1..];
    LinesTokensSnoc(dialect, parse, lines[..j], lines[j]);
    assert head[j] == lines[j];
    LinesTokensAfterStop(dialect, parse, head, lines[j + 1..]);
  }

  /**
   * When the lines processed so far, through chunk `i`, stop the stream,
   * they decode to the tokens of the whole stream, whatever the later
   * chunks hold.
   */
  lemma StopEndsStream(dialect: Dialect, parse: string -> Option<Json>, chunks: seq<string>, i: nat,
                       done: seq<string>, buffer: string)
    requires i < |chunks|
    requires NoNewlines(done) && HasStop(dialect, parse, done)
    requires Terminated(done) + buffer == Concat(chunks[..i + 1])
    ensures StreamTokens(dialect, parse, Concat(chunks)) == LinesTokens(dialect, parse, done)
  {
    assert done + [] == done;
    StreamAfterChunk(chunks, i, done, [], buffer);
    StoppedPrefix(dialect, parse, done, Terminated([]) + buffer + Concat(chunks[i + 1..]));
  }

  lemma StreamAfterChunk(chunks: seq<string>, i: nat, done: seq<string>, unread: seq<string>, buffer: string)
    requires i < |chunks|
    requires Terminated(done + unread) + buffer == Concat(chunks[..i + 1])
    ensures Concat(chunks) == Terminated(done) + (Terminated(unread) + buffer + Concat(chunks[i + 1..]))
  {
    TerminatedAppend(done, unread);
    ConcatSplit(chunks, i + 1);
  }

  /** Text after a stopping line never reaches the decoder. */
  lemma StoppedPrefix(dialect: Dialect, parse: string -> Option<Json>, done: seq<string>, rest: string)
    requires NoNewlines(done)
    requires HasStop(dialect, parse, done)
    ensures StreamTokens(dialect, parse, Terminated(done) + rest) == LinesTokens(dialect, parse, done)
  {
    SplitAfterLines(done, rest);
    var pieces := Split(rest);
    assert CompleteLines(Terminated(done) + rest) == done + pieces[..|pieces| - 1];
    LinesTokensAfterStop(dialect, parse, done, pieces[..|pieces| - 1]);
  }

  lemma {:induction false} ConcatSplit(pieces: seq<string>, n: nat)
    requires n <= |pieces|
    ensures Concat(pieces) == Concat(pieces[..n]) + Concat(pieces[n..])
    decreases |pieces|
  {
    if n < |pieces| {
      var last := |pieces| - 1;
      ConcatSplit(pieces[..last], n);
      assert pieces[..last][..n] == pieces[..n];
      assert pieces[n..][..|pieces[n..]| - 1] == pieces[..last][n..];
    } else {
      assert pieces[n..] == [];
      assert pieces[..n] == pieces;
    }
  }

  /** The payload of a `data: ` line is the line without its first six characters. */
  lemma DataLinePayload(payload: string)
    ensures StartsWith(DataPrefix + payload, DataPrefix)
    ensures (DataPrefix + payload)[|DataPrefix|..] == payload
  {
    assert (DataPrefix + payload)[..|DataPrefix|] == DataPrefix;
  }

  /** Lines that do not start with `data: ` (comments, `event:` lines, blank lines) yield nothing. */
  lemma NonDataLineSkipped(dialect: Dialect, parse: string -> Option<Json>, line: string)
    requires !StartsWith(line, DataPrefix)
    ensures ClassifyLine(dialect, parse, line) == Skip
  {
  }

  /** OpenAI and Groq: `data: [DONE]` ends the stream; nothing after it is decoded, even complete lines. */
  lemma {:induction false} DoneEndsStream(parse: string -> Option<Json>, lines: seq<string>, rest: string)
    requires NoNewlines(lines)
    ensures StreamTokens(ChatCompletionsFrames, parse, Terminated(lines + [DataPrefix + DoneSentinel]) + rest)
         == LinesTokens(ChatCompletionsFrames, parse, lines)
  {
    var done := lines + [DataPrefix + DoneSentinel];
    DataLinePayload(DoneSentinel);
    assert ClassifyLine(ChatCompletionsFrames, parse, done[|lines|]) == Stop;
    assert NoNewlines(done) by {
      forall k | 0 <= k < |done| ensures '\n' !in done[k] {
        if k < |lines| { assert done[k] == lines[k]; }
      }
    }
    StoppedPrefix(ChatCompletionsFrames, parse, done, rest);
    if HasStop(ChatCompletionsFrames, parse, lines) {
      LinesTokensAfterStop(ChatCompletionsFrames, parse, lines, [DataPrefix + DoneSentinel]);
    } else {
      LinesTokensSnoc(ChatCompletionsFrames, parse, lines, DataPrefix + DoneSentinel);
    }
  }

  /** An unterminated last line is still in the buffer when the reader is done, and is dropped. */
  lemma PartialLineDropped(dialect: Dialect, parse: string -> Option<Json>, lines: seq<string>, partial: string)
    requires NoNewlines(lines) && '\n' !in partial
    ensures StreamTokens(dialect, parse, Terminated(lines) + partial) == LinesTokens(dialect, parse, lines)
  {
    LinesOfJoin(lines, partial);
  }

  /** Anthropic and Gemini frames never stop the stream: it ends only when the reader is done. */
  lemma NoSentinel(dialect: Dialect, parse: string -> Option<Json>, line: string)
    requires dialect != ChatCompletionsFrames
    ensures ClassifyLine(dialect, parse, line) != Stop
  {
  }

  /** Without a stopping line, decoding distributes over consecutive runs of lines. */
  lemma {:induction false} LinesTokensAppend(dialect: Dialect, parse: string -> Option<Json>, a: seq<string>, b: seq<string>)
    requires !HasStop(dialect, parse, a)
    ensures LinesTokens(dialect, parse, a + b) == LinesTokens(dialect, parse, a) + LinesTokens(dialect, parse, b)
    decreases |a|
  {
    if a == [] {
      assert a + b == b;
    } else {
      assert (a + b)[0] == a[0];
      assert (a + b)[1..] == a[1..] + b;
      assert ClassifyLine(dialect, parse, a[0]) != Stop;
      assert !HasStop(dialect, parse, a[1..]) by {
        forall k | 0 <= k < |a[1..]| ensures ClassifyLine(dialect, parse, a[1..][k]) != Stop {
          assert a[1..][k] == a[k + 1];
        }
      }
      LinesTokensAppend(dialect, parse, a[1..], b);
    }
  }

  /**
   * OpenAI and Groq: a frame whose `choices` is missing makes the property
   * access throw inside the try, so the line is skipped.
   */
  lemma MissingChoicesSkipped(parse: string -> Option<Json>, payload: string, fields: map<string, Json>)
    requires payload != DoneSentinel
    requires parse(payload) == Some(JObject(fields)) && "choices" !in fields
    ensures ClassifyLine(ChatCompletionsFrames, parse, DataPrefix + payload) == Skip
  {
    DataLinePayload(payload);
  }

  /** OpenAI and Groq: a first choice without `delta.content` yields the empty token. */
  lemma EmptyDeltaYieldsEmpty(parse: string -> Option<Json>, payload: string, choice: Json)
    requires payload != DoneSentinel
    requires parse(payload) == Some(JObject(map["choices" := JArray([choice])]))
    requires choice.JObject? && "delta" !in choice.fields
    ensures ClassifyLine(ChatCompletionsFrames, parse, DataPrefix + payload) == Emit("")
  {
    DataLinePayload(payload);
  }

  /** OpenAI and Groq: a well-formed delta frame yields its content. */
  lemma DeltaContentYielded(parse: string -> Option<Json>, payload: string, content: string)
    requires payload != DoneSentinel && content != ""
    requires parse(payload) == Some(JObject(map["choices" := JArray([
      JObject(map["delta" := JObject(map["content" := JString(content)])])])]))
    ensures ClassifyLine(ChatCompletionsFrames, parse, DataPrefix + payload) == Emit(content)
  {
    DataLinePayload(payload);
  }

  /** Anthropic: a `content_block_delta` frame yields its `delta.text`, whatever other fields it carries. */
  lemma AnthropicDeltaYielded(parse: string -> Option<Json>, payload: string, fields: map<string, Json>,
                              delta: map<string, Json>, text: string)
    requires parse(payload) == Some(JObject(fields))
    requires "type" in fields && fields["type"] == JString(ContentBlockDelta)
    requires "delta" in fields && fields["delta"] == JObject(delta)
    requires "text" in delta && delta["text"] == JString(text) && text != ""
    ensures ClassifyLine(AnthropicFrames, parse, DataPrefix + payload) == Emit(text)
  {
    DataLinePayload(payload);
  }

  /** Anthropic: a `content_block_delta` frame without `delta`, or whose delta has no `text`, yields the empty token. */
  lemma AnthropicMissingTextYieldsEmpty(parse: string -> Option<Json>, payload: string, fields: map<string, Json>)
    requires parse(payload) == Some(JObject(fields))
    requires "type" in fields && fields["type"] == JString(ContentBlockDelta)
    requires "delta" !in fields || (fields["delta"].JObject? && "text" !in fields["delta"].fields)
    ensures ClassifyLine(AnthropicFrames, parse, DataPrefix + payload) == Emit("")
  {
    DataLinePayload(payload);
  }

  /** Gemini: a frame yields the text of the first part of the first candidate's content, whatever else it carries. */
  lemma GeminiTextYielded(parse: string -> Option<Json>, payload: string, fields: map<string, Json>,
                          candidates: seq<Json>, candidate: map<string, Json>, content: map<string, Json>,
                          parts: seq<Json>, part: map<string, Json>, text: string)
    requires parse(payload) == Some(JObject(fields))
    requires "candidates" in fields && fields["candidates"] == JArray(candidates)
    requires |candidates| > 0 && candidates[0] == JObject(candidate)
    requires "content" in candidate && candidate["content"] == JObject(content)
    requires "parts" in content && content["parts"] == JArray(parts)
    requires |parts| > 0 && parts[0] == JObject(part)
    requires "text" in part && part["text"] == JString(text) && text != ""
    ensures ClassifyLine(GeminiFrames, parse, DataPrefix + payload) == Emit(text)
  {
    DataLinePayload(payload);
  }

  /** Gemini: a frame without candidates (a usage-only frame, say) yields the empty token. */
  lemma GeminiNoCandidatesYieldsEmpty(parse: string -> Option<Json>, payload: string, fields: map<string, Json>)
    requires parse(payload) == Some(JObject(fields))
    requires "candidates" !in fields
    ensures ClassifyLine(GeminiFrames, parse, DataPrefix + payload) == Emit("")
  {
    DataLinePayload(payload);
  }

  /** Anthropic: parsed frames of any other type (message_start, ping, ...) yield nothing. */
  lemma OtherAnthropicFramesSkipped(parse: string -> Option<Json>, payload: string, json: Json)
    requires parse(payload) == Some(json)
    requires Property(json, "type") != Some(JString(ContentBlockDelta))
    ensures ClassifyLine(AnthropicFrames, parse, DataPrefix + payload) == Skip
  {
    DataLinePayload(payload);
  }

  /** Every dialect: a payload that does not parse is skipped, never fatal. */
  lemma UnparseableSkipped(dialect: Dialect, parse: string -> Option<Json>, payload: string)
    requires parse(payload).None?
    requires dialect == ChatCompletionsFrames ==> payload != DoneSentinel
    ensures ClassifyLine(dialect, parse, DataPrefix + payload) == Skip
  {
    DataLinePayload(payload);
  }
}
