/**
 * The LangChain chat adapter over DashScope: it decides per model whether to
 * call the streaming API, converts chat messages to DashScope's format, merges
 * the call parameters, and folds a stream of chunks into the final answer and
 * its reasoning.
 */
module StreamingAdapter {
  import opened Wrappers
  import opened PyValue
  import opened DashScope

  /** The models answered through the streaming API unless the caller names others. */
  const StreamingModels: seq<string> := ["qwq-32b", "qwq-plus", "qwq-plus-latest"]

  datatype Adapter = Adapter(
    modelVersion: string,
    apiKey: Value,
    baseUrl: Option<string>,
    streamingModels: seq<string>,
    streamEnabled: bool,
    defaultParams: map<string, Value>)

  /**
   * `__init__`: the given key, or else the one the configuration holds at
   * `api.qwen.api_key` (`configuredKey`, the configuration manager's answer).
   */
  function NewAdapter(model: string, apiKey: Option<string>, baseUrl: Option<string>,
                      streamingModels: Option<seq<string>>, streamEnabled: bool,
                      kwargs: map<string, Value>, configuredKey: Value): Result<Adapter>
  {
    var models := if streamingModels.Some? && streamingModels.value != [] then streamingModels.value else StreamingModels;
    var key := if apiKey.Some? && apiKey.value != "" then Str(apiKey.value) else configuredKey;
    if !Truthy(key) then Err("API key is required")
    else Ok(Adapter(model, key, baseUrl, models, streamEnabled, kwargs))
  }

  /** Construction fails exactly when neither the caller nor the configuration gives a key; an empty model list keeps the default. */
  lemma NewAdapterFacts(model: string, apiKey: Option<string>, baseUrl: Option<string>,
                        streamingModels: Option<seq<string>>, streamEnabled: bool,
                        kwargs: map<string, Value>, configuredKey: Value)
    ensures var r := NewAdapter(model, apiKey, baseUrl, streamingModels, streamEnabled, kwargs, configuredKey);
      && (r.Err? <==> (apiKey.None? || apiKey.value == "") && !Truthy(configuredKey))
      && (r.Err? ==> r.error == "API key is required")
      && (r.Ok? ==> r.value.modelVersion == model && r.value.defaultParams == kwargs && Truthy(r.value.apiKey))
      && (r.Ok? && (streamingModels.None? || streamingModels.value == []) ==> r.value.streamingModels == StreamingModels)
  {
  }

  /** `is_streaming_model`. */
  predicate IsStreamingModel(a: Adapter)
  {
    a.streamEnabled && a.modelVersion in a.streamingModels
  }

  // ----- messages -----

  datatype Message =
    | HumanMessage(content: string)
    | AIMessage(content: string)
    | FunctionMessage(name: string, content: string)
    | OtherMessage(content: string)

  /** A DashScope message: a role, the function name for function messages, and the content. */
  datatype DashMessage = DashMessage(role: string, name: Option<string>, content: string)

  function Converted(m: Message): DashMessage
  {
    match m
    case HumanMessage(c) => DashMessage("user", None, c)
    case AIMessage(c) => DashMessage("assistant", None, c)
    case FunctionMessage(n, c) => DashMessage("function", Some(n), c)
    case OtherMessage(c) => DashMessage("user", None, c)
  }

  /** Human and any other kind of message speak as the user, AI as the assistant; only function messages carry a name; content is kept. */
  lemma ConvertedRoles(m: Message)
    ensures Converted(m).role == "user" <==> m.HumanMessage? || m.OtherMessage?
    ensures Converted(m).role == "assistant" <==> m.AIMessage?
    ensures Converted(m).role == "function" <==> m.FunctionMessage?
    ensures Converted(m).name.Some? <==> m.FunctionMessage?
    ensures m.FunctionMessage? ==> Converted(m).name == Some(m.name)
    ensures Converted(m).content == m.content
  {
  }

  /** `_convert_messages_to_prompt`: one DashScope message per chat message, in order. */
  method ConvertMessages(messages: seq<Message>) returns (out: seq<DashMessage>)
    ensures |out| == |messages|
    ensures forall i :: 0 <= i < |messages| ==> out[i] == Converted(messages[i])
  {
    out := [];
    var i := 0;
    while i < |messages|
      invariant 0 <= i <= |messages|
      invariant |out| == i
      invariant forall k :: 0 <= k < i ==> out[k] == Converted(messages[k])
    {
      var m := messages[i];
      match m {
        case HumanMessage(c) =>
          out := out + [DashMessage("user", None, c)];
        case AIMessage(c) =>
          out := out + [DashMessage("assistant", None, c)];
        case FunctionMessage(n, c) =>
          out := out + [DashMessage("function", Some(n), c)];
        case OtherMessage(c) =>
          out := out + [DashMessage("user", None, c)];
      }
      i := i + 1;
    }
  }

  // ----- parameters -----

  function StopList(stop: seq<string>): Value
  {
    List(seq(|stop|, i requires 0 <= i < |stop| => Str(stop[i])))
  }

  /** `{**default_params, **kwargs}`, plus `stop_sequences` when stop sequences are given. */
  function CallParams(defaults: map<string, Value>, kwargs: map<string, Value>, stop: Option<seq<string>>): map<string, Value>
  {
    var params := defaults + kwargs;
    if stop.Some? && stop.value != [] then params["stop_sequences" := StopList(stop.value)] else params
  }

  /** The call's own arguments win over the defaults, the stop list wins over both, and nothing else is added. */
  lemma CallParamsFacts(defaults: map<string, Value>, kwargs: map<string, Value>, stop: Option<seq<string>>)
    ensures var p := CallParams(defaults, kwargs, stop);
      var stops := stop.Some? && stop.value != [];
      && p.Keys == defaults.Keys + kwargs.Keys + (if stops then {"stop_sequences"} else {})
      && (stops ==> p["stop_sequences"] == StopList(stop.value))
      && (forall k :: k in kwargs && (k != "stop_sequences" || !stops) ==> p[k] == kwargs[k])
      && (forall k :: k in defaults && k !in kwargs && (k != "stop_sequences" || !stops) ==> p[k] == defaults[k])
  {
  }

  // ----- generation -----

  /** The reply message: the answer, with the reasoning in `additional_kwargs` when there is any. */
  datatype AiReply = AiReply(content: string, reasoning: Option<string>)

  /** What the adapter sends: model, converted messages, whether it streams, and the parameters. */
  datatype Call = Call(model: string, messages: seq<DashMessage>, stream: bool, params: map<string, Value>)

  /** `_non_stream_generate`'s outcome: the first choice's content on status 200; otherwise it raises. */
  function PlainOutcome(reply: Reply): Result<AiReply>
  {
    match reply
    case Raised(e) => Err(e)
    case Response(code, content, message) =>
      if code == 200 then Ok(AiReply(content, None)) else Err("Model call failed: " + message)
  }

  /** `_stream_generate`'s outcome: the folded answer and reasoning, unless the stream raised. */
  function StreamOutcome(stream: Stream): Result<AiReply>
  {
    if stream.failure.Some? then Err(stream.failure.value)
    else
      var reasoning := Thinking(stream.chunks);
      Ok(AiReply(Contents(stream.chunks), if reasoning != "" then Some(reasoning) else None))
  }

  /** A reply succeeds only with status 200, and a streamed reply carries reasoning only when some chunk without content had it. */
  lemma OutcomeFacts(reply: Reply, stream: Stream)
    ensures PlainOutcome(reply).Ok? <==> reply.Response? && reply.statusCode == 200
    ensures PlainOutcome(reply).Ok? ==> PlainOutcome(reply).value == AiReply(reply.content, None)
    ensures reply.Response? && reply.statusCode != 200 ==> PlainOutcome(reply) == Err("Model call failed: " + reply.message)
    ensures StreamOutcome(stream).Ok? <==> stream.failure.None?
    ensures StreamOutcome(stream).Ok? ==> StreamOutcome(stream).value.content == Concat(Tokens(stream.chunks))
    ensures StreamOutcome(stream).Ok? ==>
      (StreamOutcome(stream).value.reasoning.Some? <==> Thinking(stream.chunks) != "")
  {
    TokensMakeContents(stream.chunks);
  }

  /** `_non_stream_generate`; with a callback the content is passed on as one token. */
  method NonStreamGenerate(reply: Reply, callback: bool) returns (r: Result<AiReply>, tokens: seq<string>)
    ensures r == PlainOutcome(reply)
    ensures tokens == if callback && r.Ok? then [reply.content] else []
  {
    tokens := [];
    match reply
    case Raised(e) =>
      return Err(e), [];
    case Response(code, content, message) =>
      if code == 200 {
        if callback {
          tokens := [content];
        }
        r := Ok(AiReply(content, None));
      } else {
        r := Err("Model call failed: " + message);
      }
  }

  /**
   * `_stream_generate`: blank chunks are skipped, reasoning accumulates from
   * chunks without content, content accumulates and is passed to the callback.
   */
  method StreamGenerate(stream: Stream, callback: bool) returns (r: Result<AiReply>, tokens: seq<string>)
    ensures r == StreamOutcome(stream)
    ensures tokens == if callback then Tokens(stream.chunks) else []
  {
    var chunks := stream.chunks;
    var answer, reasoning := "", "";
    tokens := [];
    var i := 0;
    while i < |chunks|
      invariant 0 <= i <= |chunks|
      invariant answer == Contents(chunks[..i])
      invariant reasoning == Thinking(chunks[..i])
      invariant tokens == if callback then Tokens(chunks[..i]) else []
    {
      var c := chunks[i];
      assert chunks[..i + 1][..i] == chunks[..i];
      if !(c.content == "" && c.reasoning == "") {
        if c.reasoning != "" && c.content == "" {
          reasoning := reasoning + c.reasoning;
        }
        if c.content != "" {
          answer := answer + c.content;
          if callback {
            tokens := tokens + [c.content];
          }
        }
      }
      i := i + 1;
    }
    assert chunks[..i] == chunks;
    if stream.failure.Some? {
      return Err(stream.failure.value), tokens;
    }
    r := Ok(AiReply(answer, if reasoning != "" then Some(reasoning) else None));
  }

  /**
   * `_generate`: the call goes to the streaming API exactly for streaming models,
   * with the converted messages and the merged parameters; `reply` and `stream`
   * are what DashScope answers on either path.
   */
  method Generate(a: Adapter, messages: seq<Message>, stop: Option<seq<string>>, kwargs: map<string, Value>,
                  reply: Reply, stream: Stream, callback: bool)
    returns (call: Call, r: Result<AiReply>, tokens: seq<string>)
    ensures call.model == a.modelVersion && call.stream == IsStreamingModel(a)
    ensures call.params == CallParams(a.defaultParams, kwargs, stop)
    ensures |call.messages| == |messages| && forall i :: 0 <= i < |messages| ==> call.messages[i] == Converted(messages[i])
    ensures r == if IsStreamingModel(a) then StreamOutcome(stream) else PlainOutcome(reply)
    ensures IsStreamingModel(a) ==> tokens == if callback then Tokens(stream.chunks) else []
    ensures !IsStreamingModel(a) ==> tokens == if callback && r.Ok? then [reply.content] else []
  {
    var params := a.defaultParams + kwargs;
    if stop.Some? && stop.value != [] {
      params := params["stop_sequences" := StopList(stop.value)];
    }
    var converted := ConvertMessages(messages);
    var useStream := IsStreamingModel(a);
    call := Call(a.modelVersion, converted, useStream, params);
    if useStream {
      r, tokens := StreamGenerate(stream, callback);
    } else {
      r, tokens := NonStreamGenerate(reply, callback);
    }
  }
}
