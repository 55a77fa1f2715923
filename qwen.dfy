/**
 * The QWEN model wrapper: construction from a configuration dictionary, the
 * choice between the streaming and the plain API by model version, and the
 * result dictionaries each path returns.
 */
module Qwen {
  import opened Wrappers
  import opened PyValue
  import opened DashScope

  /** The model versions answered through the streaming API. */
  const StreamModelVersions: seq<string> := ["qwq-32b", "qwq-plus", "qwq-plus-latest"]

  datatype QwenModel = QwenModel(apiKey: Value, modelVersion: Value, defaultParams: Value)

  /** `config.get(key, default)`. */
  function GetOr(config: map<string, Value>, key: string, default: Value): Value
  {
    if key in config then config[key] else default
  }

  /** `__init__`: refused unless the configuration has a truthy `api_key`. */
  function NewQwenModel(config: map<string, Value>): (r: Result<QwenModel>)
    ensures r.Err? <==> !Truthy(GetOr(config, "api_key", Null))
    ensures r.Err? ==> r.error == "API key is required for QWEN model"
    ensures r.Ok? ==> r.value.apiKey == config["api_key"]
    ensures r.Ok? ==> r.value.modelVersion == GetOr(config, "model_version", Str("qwen-turbo"))
    ensures r.Ok? ==> r.value.defaultParams == GetOr(config, "default_params", Dict(map[]))
  {
    var key := GetOr(config, "api_key", Null);
    if !Truthy(key) then Err("API key is required for QWEN model")
    else Ok(QwenModel(key, GetOr(config, "model_version", Str("qwen-turbo")), GetOr(config, "default_params", Dict(map[]))))
  }

  /** `self.model_version in stream_model_version`: only a string can be one of the listed versions. */
  predicate Streams(q: QwenModel)
  {
    q.modelVersion.Str? && q.modelVersion.s in StreamModelVersions
  }

  /** The result dictionary; an absent key is `None`, and a `None` status code is `statusCode == None`. */
  datatype Outcome = Outcome(
    success: bool,
    response: Option<string>,
    reasoning: Option<string>,
    error: Option<string>,
    statusCode: Option<int>)

  /** `generate`: the content with status 200; otherwise the response's message and status; an exception gives no status. */
  function Generate(reply: Reply): (r: Outcome)
    ensures r.success <==> reply.Response? && reply.statusCode == 200
    ensures r.success ==> r == Outcome(true, Some(reply.content), None, None, Some(200))
    ensures reply.Response? && !r.success ==> r == Outcome(false, None, None, Some(reply.message), Some(reply.statusCode))
    ensures reply.Raised? ==> r == Outcome(false, None, None, Some(reply.error), None)
  {
    match reply
    case Raised(e) => Outcome(false, None, None, Some(e), None)
    case Response(code, content, message) =>
      if code == 200 then Outcome(true, Some(content), None, None, Some(200))
      else Outcome(false, None, None, Some(message), Some(code))
  }

  /** `stream_generate`'s result for a stream: success with answer, reasoning and status 200, unless the stream raised. */
  function StreamResult(stream: Stream): Outcome
  {
    if stream.failure.Some? then Outcome(false, None, None, Some(stream.failure.value), None)
    else Outcome(true, Some(Contents(stream.chunks)), Some(Thinking(stream.chunks)), None, Some(200))
  }

  /** A successful stream result always has status 200 and both the answer and the reasoning; a failed one has no status. */
  lemma StreamResultFacts(stream: Stream)
    ensures StreamResult(stream).success <==> stream.failure.None?
    ensures StreamResult(stream).success ==> (StreamResult(stream).statusCode == Some(200)
      && StreamResult(stream).response.Some? && StreamResult(stream).reasoning.Some?)
    ensures !StreamResult(stream).success ==> StreamResult(stream).statusCode == None && StreamResult(stream).error.Some?
  {
  }

  /**
   * `stream_generate`: chunks with neither content nor reasoning are ignored;
   * reasoning accumulates from chunks without content; content accumulates,
   * and wins when a chunk has both.
   */
  method StreamGenerate(stream: Stream) returns (r: Outcome)
    ensures r == StreamResult(stream)
  {
    var chunks := stream.chunks;
    var reasoning, answer := "", "";
    var isAnswering := false;
    var i := 0;
    while i < |chunks|
      invariant 0 <= i <= |chunks|
      invariant answer == Contents(chunks[..i])
      invariant reasoning == Thinking(chunks[..i])
    {
      var c := chunks[i];
      assert chunks[..i + 1][..i] == chunks[..i];
      if c.content == "" && c.reasoning == "" {
      } else if c.reasoning != "" && c.content == "" {
        reasoning := reasoning + c.reasoning;
      } else if c.content != "" {
        isAnswering := true;
        answer := answer + c.content;
      }
      i := i + 1;
    }
    assert chunks[..i] == chunks;
    if stream.failure.Some? {
      return Outcome(false, None, None, Some(stream.failure.value), None);
    }
    r := Outcome(true, Some(answer), Some(reasoning), None, Some(200));
  }

  /** `generateDistributor`: streaming versions go to `stream_generate`, all others to `generate`. */
  method GenerateDistributor(q: QwenModel, reply: Reply, stream: Stream) returns (streamed: bool, r: Outcome)
    ensures streamed <==> Streams(q)
    ensures r == if Streams(q) then StreamResult(stream) else Generate(reply)
  {
    streamed := q.modelVersion.Str? && q.modelVersion.s in StreamModelVersions;
    if streamed {
      r := StreamGenerate(stream);
    } else {
      r := Generate(reply);
    }
  }
}
