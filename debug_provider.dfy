/** The request-logging JSON-RPC provider of the test utilities: it numbers
    every outbound call, records it in a log before handing it to the
    wrapped transport, and sorts the transport's reply into a result, a
    protocol error or a transport error (JSON-RPC 2.0, sections 4, 5 and
    5.1). */
module DebugProvider {
  import opened Wrappers

  // ---------------------------------------------------------------------------
  // JSON values as the provider sees them
  // ---------------------------------------------------------------------------

  /** A JavaScript value that can travel in a JSON-RPC message. `Null`
      stands for both `null` and `undefined`. */
  datatype Value =
    | Null
    | Bool(b: bool)
    | Number(n: int)
    | Str(s: string)
    | Array(items: seq<Value>)
    | Object(members: map<string, Value>)

  /** JavaScript truthiness, as used by `if (error)` and `if (result.error)`. */
  predicate Truthy(v: Value)
  {
    match v
    case Null => false
    case Bool(b) => b
    case Number(n) => n != 0
    case Str(s) => s != ""
    case Array(_) => true
    case Object(_) => true
  }

  /** Property read `v.key` on a value that is not null: an absent member
      reads as `undefined`. Only the JSON-RPC member names are read, and no
      primitive or array carries one of those. */
  function Member(v: Value, key: string): Value
  {
    match v
    case Object(m) => if key in m then m[key] else Null
    case _ => Null
  }

  // ---------------------------------------------------------------------------
  // Request records
  // ---------------------------------------------------------------------------

  /** A JSON-RPC 2.0 Request object (section 4). */
  datatype JsonRpcRequest = JsonRpcRequest(jsonrpc: string, id: int, methodName: Value, params: Value)

  const JsonRpcVersion: string := "2.0"

  /** What `getPastRequest` reports while nothing has been sent yet. */
  const NoRequest: JsonRpcRequest := JsonRpcRequest(JsonRpcVersion, 0, Null, Null)

  /** The record `send` builds for its `id`-th call. */
  function MakeRequest(name: string, params: Value, id: int): (req: JsonRpcRequest)
    ensures req.jsonrpc == JsonRpcVersion && req.id == id
    ensures req.methodName == Str(name) && req.params == params
    ensures req != NoRequest
  {
    JsonRpcRequest(JsonRpcVersion, id, Str(name), params)
  }

  /** One call of `send`: the method name and its parameters. */
  datatype Call = Call(name: string, params: Value)

  /** The log a fresh provider holds after the given calls, oldest first. */
  function Replay(calls: seq<Call>): seq<JsonRpcRequest>
    decreases |calls|
  {
    if calls == [] then []
    else
      var last := calls[|calls| - 1];
      Replay(calls[..|calls| - 1]) + [MakeRequest(last.name, last.params, |calls|)]
  }

  /** After N calls the log has N records, and record k carries the k-th
      call under identifier k + 1. */
  lemma {:induction false} ReplayEntries(calls: seq<Call>)
    ensures |Replay(calls)| == |calls|
    ensures forall k :: 0 <= k < |calls| ==>
      Replay(calls)[k] == MakeRequest(calls[k].name, calls[k].params, k + 1)
    decreases |calls|
  {
    if calls != [] {
      var init := calls[..|calls| - 1];
      ReplayEntries(init);
      forall k | 0 <= k < |calls| - 1
        ensures Replay(calls)[k] == MakeRequest(calls[k].name, calls[k].params, k + 1)
      {
        assert init[k] == calls[k];
      }
    }
  }

  /** Identifiers are strictly increasing in issue order, so none is reused. */
  lemma ReplayIdsIncreasing(calls: seq<Call>, i: nat, j: nat)
    requires i < j < |calls|
    ensures |Replay(calls)| == |calls| && Replay(calls)[i].id < Replay(calls)[j].id
  {
    ReplayEntries(calls);
  }

  // ---------------------------------------------------------------------------
  // Replies and their handling
  // ---------------------------------------------------------------------------

  /** The two arguments the transport passes to its completion callback,
      and whether it called back synchronously, that is, before its send
      function returned and so still inside the promise executor. */
  datatype Reply = Reply(error: Value, response: Value, synchronous: bool)

  /** Why a `send` was rejected. */
  datatype Rejection =
    /** The transport's own error, passed through unchanged. */
    | TransportError(error: Value)
    /** An `Error` built from the response's error member (section 5.1). */
    | RpcError(message: Value, code: Value, data: Value)
    /** The TypeError the callback throws reading `result.error` of a
        missing response, caught by the promise executor. */
    | CallbackTypeError

  /** How the promise returned by `send` settles. */
  datatype Outcome =
    | Resolved(result: Value)
    | Rejected(reason: Rejection)
    /** The callback, run after the executor has returned, throws a
        TypeError reading `result.error` of a missing response before it
        resolves or rejects, so the promise never settles. */
    | Unsettled

  /** The completion callback of `send`: a transport error first, then an
      error member of the response, and otherwise the response's result. */
  function HandleReply(reply: Reply): (r: Outcome)
    ensures r.Rejected? && r.reason.TransportError? <==> Truthy(reply.error)
    ensures r.Rejected? && r.reason.TransportError? ==> r.reason.error == reply.error
    ensures r.Unsettled? <==> !Truthy(reply.error) && reply.response == Null && !reply.synchronous
    ensures r == Rejected(CallbackTypeError) <==>
      !Truthy(reply.error) && reply.response == Null && reply.synchronous
    ensures r.Rejected? && r.reason.RpcError? <==>
      !Truthy(reply.error) && Truthy(Member(reply.response, "error"))
    ensures r.Rejected? && r.reason.RpcError? ==>
      var e := Member(reply.response, "error");
      r.reason == RpcError(Member(e, "message"), Member(e, "code"), Member(e, "data"))
    ensures r.Resolved? ==> r.result == Member(reply.response, "result")
  {
    if Truthy(reply.error) then
      Rejected(TransportError(reply.error))
    else if reply.response == Null then
      if reply.synchronous then Rejected(CallbackTypeError) else Unsettled
    else
      var e := Member(reply.response, "error");
      if Truthy(e) then
        Rejected(RpcError(Member(e, "message"), Member(e, "code"), Member(e, "data")))
      else
        Resolved(Member(reply.response, "result"))
  }

  /** The Error object of a JSON-RPC 2.0 error response (section 5.1). */
  datatype ErrorObject = ErrorObject(code: int, message: string, data: Option<Value>)

  /** A JSON-RPC 2.0 success response (section 5). */
  function SuccessResponse(id: Value, result: Value): Value
  {
    Object(map["jsonrpc" := Str(JsonRpcVersion), "id" := id, "result" := result])
  }

  /** A JSON-RPC 2.0 error response (sections 5 and 5.1). */
  function ErrorResponse(id: Value, e: ErrorObject): Value
  {
    var fields := map["code" := Number(e.code), "message" := Str(e.message)];
    var error := Object(if e.data.Some? then fields["data" := e.data.value] else fields);
    Object(map["jsonrpc" := Str(JsonRpcVersion), "id" := id, "error" := error])
  }

  /** Handling a reply undoes the response encoding: a success response
      resolves with its result, an error response rejects with the error's
      message, code and data (data `undefined` when absent), and a transport
      error wins over any response, whenever the callback runs. */
  lemma HandleReplyInvertsResponses(id: Value, result: Value, e: ErrorObject, err: Value, resp: Value, sync: bool)
    ensures HandleReply(Reply(Null, SuccessResponse(id, result), sync)) == Resolved(result)
    ensures HandleReply(Reply(Null, ErrorResponse(id, e), sync)) ==
      Rejected(RpcError(Str(e.message), Number(e.code), if e.data.Some? then e.data.value else Null))
    ensures Truthy(err) ==> HandleReply(Reply(err, resp, sync)) == Rejected(TransportError(err))
  {
  }

  // ---------------------------------------------------------------------------
  // Construction: choosing the transport and the endpoint
  // ---------------------------------------------------------------------------

  /** The parts of the wrapped provider that construction looks at. */
  datatype ExternalProvider = ExternalProvider(
    host: Option<string>,
    path: Option<string>,
    hasSendAsync: bool,
    hasSend: bool)

  /** Which of the wrapped provider's send functions every call goes through. */
  datatype TransportKind = SendAsyncFn | SendFn

  datatype Setup = Setup(endpoint: string, transport: TransportKind)

  datatype ConstructError =
    /** `INVALID_ARGUMENT` raised through the library's logger. */
    | InvalidArgument
    /** A property read on a missing provider. */
    | TypeError

  predicate NonEmpty(s: Option<string>)
  {
    s.Some? && s.value != ""
  }

  /** The endpoint handed to the superclass: the host (HTTP), else the path
      (IPC), else the empty string. */
  function Endpoint(p: ExternalProvider): (url: string)
    ensures NonEmpty(p.host) ==> url == p.host.value
    ensures !NonEmpty(p.host) && NonEmpty(p.path) ==> url == p.path.value
    ensures url == "" <==> !NonEmpty(p.host) && !NonEmpty(p.path)
  {
    if NonEmpty(p.host) then p.host.value
    else if NonEmpty(p.path) then p.path.value
    else ""
  }

  /** `sendAsync` when the provider has it, else `send`, else nothing. */
  function SelectTransport(p: ExternalProvider): (t: Option<TransportKind>)
    ensures t == Some(SendAsyncFn) <==> p.hasSendAsync
    ensures t == Some(SendFn) <==> !p.hasSendAsync && p.hasSend
    ensures t.None? <==> !p.hasSendAsync && !p.hasSend
  {
    if p.hasSendAsync then Some(SendAsyncFn)
    else if p.hasSend then Some(SendFn)
    else None
  }

  /** Construction as intended: a missing provider, or one with neither
      send function, is rejected with `INVALID_ARGUMENT`. */
  function Construct(web3Provider: Option<ExternalProvider>): (r: Result<Setup, ConstructError>)
    ensures r.Failure? <==> web3Provider.None? || SelectTransport(web3Provider.value).None?
    ensures r.Failure? ==> r.error == InvalidArgument
    ensures r.Success? ==>
      r.value.transport == (if web3Provider.value.hasSendAsync then SendAsyncFn else SendFn) &&
      r.value.endpoint == Endpoint(web3Provider.value)
  {
    if web3Provider.None? then Failure(InvalidArgument)
    else
      var p := web3Provider.value;
      match SelectTransport(p)
      case None => Failure(InvalidArgument)
      case Some(t) => Success(Setup(Endpoint(p), t))
  }

  /** Construction as written: the endpoint expression dereferences the
      provider before the guard that would report it missing, so a missing
      provider raises a TypeError instead of `INVALID_ARGUMENT`. */
  function ConstructAsWritten(web3Provider: Option<ExternalProvider>): (r: Result<Setup, ConstructError>)
    ensures r == Failure(TypeError) <==> web3Provider.None?
    ensures web3Provider.Some? ==> r == Construct(web3Provider)
  {
    if web3Provider.None? then Failure(TypeError) else Construct(web3Provider)
  }

  /** For a `null` or `undefined` provider the missing-provider guard is
      dead: that input never gets past the endpoint expression. */
  lemma MissingProviderRaisesTypeError()
    ensures ConstructAsWritten(None) == Failure(TypeError)
    ensures Construct(None) == Failure(InvalidArgument)
  {
  }

  // ---------------------------------------------------------------------------
  // The provider
  // ---------------------------------------------------------------------------

  class Web3DebugProvider {
    /** Number of calls issued so far; the identifier of the latest one. */
    var reqCounter: int
    /** Every request issued, oldest first. */
    var reqLog: seq<JsonRpcRequest>
    const transport: TransportKind
    const endpoint: string
    /** The calls made so far, oldest first. */
    ghost var calls: seq<Call>

    ghost predicate Valid()
      reads this
    {
      reqCounter == |calls| && reqLog == Replay(calls)
    }

    constructor (setup: Setup)
      ensures Valid() && calls == []
      ensures reqCounter == 0 && reqLog == []
      ensures transport == setup.transport && endpoint == setup.endpoint
    {
      reqCounter := 0;
      reqLog := [];
      transport := setup.transport;
      endpoint := setup.endpoint;
      calls := [];
    }

    /** The corrected `new Web3DebugProvider(web3Provider)`, built on
        `Construct`: fails at construction when the provider is missing or
        has no send function. */
    static method Create(web3Provider: Option<ExternalProvider>) returns (r: Result<Web3DebugProvider, ConstructError>)
      ensures r.Failure? <==> Construct(web3Provider).Failure?
      ensures r.Failure? ==> r.error == Construct(web3Provider).error
      ensures r.Success? ==>
        fresh(r.value) && r.value.Valid() && r.value.calls == [] &&
        r.value.reqCounter == 0 && r.value.reqLog == [] &&
        r.value.transport == Construct(web3Provider).value.transport &&
        r.value.endpoint == Construct(web3Provider).value.endpoint
    {
      match Construct(web3Provider)
      case Failure(e) =>
        r := Failure(e);
      case Success(setup) =>
        var provider := new Web3DebugProvider(setup);
        r := Success(provider);
    }

    /** `send(method, params)`: takes the next identifier, logs the request
        before the transport is involved, then settles on the transport's
        reply. The log grows by exactly this request whatever the reply. */
    method Send(name: string, params: Value, reply: Reply) returns (outcome: Outcome)
      requires Valid()
      modifies this
      ensures Valid()
      ensures calls == old(calls) + [Call(name, params)]
      ensures reqCounter == old(reqCounter) + 1
      ensures reqLog == old(reqLog) + [MakeRequest(name, params, reqCounter)]
      ensures outcome == HandleReply(reply)
    {
      reqCounter := reqCounter + 1;
      var request := MakeRequest(name, params, reqCounter);
      reqLog := reqLog + [request];
      calls := calls + [Call(name, params)];
      outcome := HandleReply(reply);
    }

    /** `getPastRequest(reverseIndex)`: the record `reverseIndex` calls
        before the latest one; the no-request record while the log is
        empty; `None` (JavaScript's `undefined`) past the oldest record. */
    function GetPastRequest(reverseIndex: nat): (r: Option<JsonRpcRequest>)
      reads this
      ensures reqLog == [] ==> r == Some(NoRequest)
      ensures reqLog != [] ==> (r.Some? <==> reverseIndex < |reqLog|)
      ensures reqLog != [] && r.Some? ==> r.value in reqLog
    {
      if |reqLog| == 0 then Some(NoRequest)
      else if reverseIndex < |reqLog| then Some(reqLog[|reqLog| - reverseIndex - 1])
      else None
    }

    /** `getPastRequest(j)` is the call made j + 1 calls ago, under
        identifier N - j after N calls; 0 gives the latest. */
    lemma PastRequestIsCall(j: nat)
      requires Valid() && j < |calls|
      ensures GetPastRequest(j) ==
        Some(MakeRequest(calls[|calls| - 1 - j].name, calls[|calls| - 1 - j].params, |calls| - j))
    {
      ReplayEntries(calls);
    }

    /** Before the first call every index reports the no-request record. */
    lemma NoRequestBeforeFirstCall(j: nat)
      requires Valid() && calls == []
      ensures GetPastRequest(j) == Some(NoRequest)
    {
    }
  }

  /** A provider whose transport resolves `eth_call` with 42, then reports
      a protocol error, then fails outright, then calls back synchronously
      without a response. */
  method ExampleSession(a: Value, b: Value, transportFailure: Value)
    requires Truthy(transportFailure)
  {
    var created := Web3DebugProvider.Create(Some(ExternalProvider(Some("localhost"), None, false, true)));
    assert created.Success?;
    var provider := created.value;
    assert provider.transport == SendFn && provider.endpoint == "localhost";
    assert provider.GetPastRequest(0) == Some(NoRequest);

    var params := Array([a, b]);
    var o1 := provider.Send("eth_call", params, Reply(Null, SuccessResponse(Number(1), Number(42)), false));
    HandleReplyInvertsResponses(Number(1), Number(42), ErrorObject(-32000, "boom", None), Null, Null, false);
    assert o1 == Resolved(Number(42));
    assert provider.reqLog == [JsonRpcRequest("2.0", 1, Str("eth_call"), params)];

    var o2 := provider.Send("eth_sendTransaction", params,
      Reply(Null, ErrorResponse(Number(2), ErrorObject(-32000, "boom", None)), false));
    HandleReplyInvertsResponses(Number(2), Null, ErrorObject(-32000, "boom", None), Null, Null, false);
    assert o2 == Rejected(RpcError(Str("boom"), Number(-32000), Null));

    var o3 := provider.Send("eth_blockNumber", Array([]), Reply(transportFailure, Null, true));
    assert o3 == Rejected(TransportError(transportFailure));
    provider.PastRequestIsCall(0);
    provider.PastRequestIsCall(2);
    assert provider.GetPastRequest(0).value.id == 3;
    assert provider.GetPastRequest(2).value.methodName == Str("eth_call");
    assert provider.GetPastRequest(3).None?;

    var o4 := provider.Send("eth_chainId", Array([]), Reply(Null, Null, true));
    assert o4 == Rejected(CallbackTypeError);
    assert |provider.reqLog| == 4;
  }
}
