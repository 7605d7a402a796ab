/**
 * The request side: `MainHandler` binds a request to the handler registered
 * for its method (query arguments, annotation-driven casting, JSON body),
 * invokes it and writes its result or its error; `DefaultHandler` answers
 * every request no route matches with a 404.
 *
 * The argument parser, UTF-8 decoding, `json.loads`, `json.dumps`, the
 * `__json__` hook and the handler call itself are foreign code: they are the
 * uninterpreted functions of a `Runtime`.
 */
module Dispatch {
  import opened Wrappers
  import opened OrderedDict
  import opened HandlerDefs
  import opened Routing

  /** A value flowing through the pipeline: text taken from the URL, or any other object. */
  datatype Value = Str(s: string) | Obj(id: nat)

  datatype ClientKind = BadRequest | MethodNotAllowed | NotFound | OtherClientError(name: string)

  /**
   * The exceptions the dispatcher tells apart: `calm.ex.ClientError`s (with
   * their status code, `message` and `str(exc)`), `calm.ex.ServerError`, and
   * any other exception, known only by its type.
   */
  datatype Exception =
    | ClientError(kind: ClientKind, code: int, message: string, text: string)
    | ServerError(message: string)
    | OtherError(typeName: string)

  function BadRequestError(message: string): Exception
  {
    ClientError(BadRequest, 400, message, message)
  }

  const MethodNotAllowedError: Exception := ClientError(MethodNotAllowed, 405, "", "")
  const NotFoundError: Exception := ClientError(NotFound, 404, "", "")

  function MissingArgumentMessage(qarg: string): string
  {
    "Missing required query argument '" + qarg + "'"
  }

  const MalformedBodyMessage := "Malformed request body. JSON is expected."
  const ServerErrorMessage := "Oops our bad. We are working to fix this!"

  function NotSerializableMessage(typeName: string): string
  {
    "Could not serialize '" + typeName + "' to JSON"
  }

  /** The request body: the bytes received, or the JSON value they were parsed into. */
  datatype Body = Raw(bytes: seq<bv8>) | Parsed(json: Value)

  /** A request: what `get_query_argument` answers for each name present, and the body. */
  datatype Request = Request(query: map<string, string>, body: Body)

  /** The foreign code the dispatcher calls. */
  datatype Runtime = Runtime(
    parse: (TypeTag, Value) -> Result<Value, Exception>,
    decodeUtf8: seq<bv8> -> Option<string>,
    loads: string -> Option<Value>,
    invoke: (Handler, Request, Dict<Value>) -> Result<Value, Exception>,
    jsonHook: Value -> Option<Value>,
    dumps: Value -> Option<string>,
    typeName: Value -> string)

  /** The parts of a `HandlerDef` the dispatcher reads: the function to call and its query arguments. */
  datatype Endpoint = Endpoint(handler: Handler, queryArgs: Dict<bool>)

  // ---------------------------------------------------------------------------
  // Query arguments (`_get_query_args`)
  // ---------------------------------------------------------------------------

  /** `_get_query_args`, from the point where `acc` has been collected and `qargs` remain. */
  function CollectQuery(acc: Dict<Value>, qargs: Dict<bool>, query: map<string, string>): Result<Dict<Value>, Exception>
    decreases |qargs|
  {
    if qargs == [] then Success(acc)
    else if qargs[0].key in query then CollectQuery(Put(acc, qargs[0].key, Str(query[qargs[0].key])), qargs[1..], query)
    else if !qargs[0].value then CollectQuery(acc, qargs[1..], query)
    else Failure(BadRequestError(MissingArgumentMessage(qargs[0].key)))
  }

  function QueryValues(qargs: Dict<bool>, query: map<string, string>): Result<Dict<Value>, Exception>
  {
    CollectQuery([], qargs, query)
  }

  /** Entry `i` is the first required query argument the request lacks. */
  predicate FirstMissing(qargs: Dict<bool>, query: map<string, string>, i: int)
  {
    0 <= i < |qargs| && qargs[i].value && qargs[i].key !in query
    && forall j :: 0 <= j < i ==> !(qargs[j].value && qargs[j].key !in query)
  }

  /** Collection fails exactly when a required argument is missing, naming the first one. */
  lemma {:induction false} CollectQueryFails(acc: Dict<Value>, qargs: Dict<bool>, query: map<string, string>)
    ensures CollectQuery(acc, qargs, query).Failure? <==>
      exists i :: 0 <= i < |qargs| && qargs[i].value && qargs[i].key !in query
    ensures CollectQuery(acc, qargs, query).Failure? ==>
      exists i :: FirstMissing(qargs, query, i)
        && CollectQuery(acc, qargs, query).error == BadRequestError(MissingArgumentMessage(qargs[i].key))
    decreases |qargs|
  {
    if qargs != [] {
      var rest := qargs[1..];
      assert forall i :: 1 <= i < |qargs| ==> qargs[i] == rest[i - 1];
      if qargs[0].value && qargs[0].key !in query {
        assert FirstMissing(qargs, query, 0);
      } else {
        var acc' := if qargs[0].key in query then Put(acc, qargs[0].key, Str(query[qargs[0].key])) else acc;
        CollectQueryFails(acc', rest, query);
        if CollectQuery(acc', rest, query).Failure? {
          var k :| FirstMissing(rest, query, k)
            && CollectQuery(acc', rest, query).error == BadRequestError(MissingArgumentMessage(rest[k].key));
          assert FirstMissing(qargs, query, k + 1);
        }
      }
    }
  }

  /**
   * On success the arguments the request carries are added with their text,
   * and nothing else: a missing optional argument gets no entry (no default).
   */
  lemma {:induction false} CollectQueryContents(acc: Dict<Value>, qargs: Dict<bool>, query: map<string, string>)
    requires CollectQuery(acc, qargs, query).Success?
    ensures Keys(CollectQuery(acc, qargs, query).value) == Keys(acc) + (Keys(qargs) * query.Keys)
    ensures UniqueKeys(acc) ==> UniqueKeys(CollectQuery(acc, qargs, query).value)
    ensures forall k :: k in Keys(qargs) * query.Keys ==> Get(CollectQuery(acc, qargs, query).value, k) == Some(Str(query[k]))
    ensures forall k :: k !in Keys(qargs) * query.Keys ==> Get(CollectQuery(acc, qargs, query).value, k) == Get(acc, k)
    decreases |qargs|
  {
    if qargs != [] {
      var acc' := if qargs[0].key in query then Put(acc, qargs[0].key, Str(query[qargs[0].key])) else acc;
      CollectQueryContents(acc', qargs[1..], query);
      assert Keys(qargs) == {qargs[0].key} + Keys(qargs[1..]);
    }
  }

  // ---------------------------------------------------------------------------
  // Casting (`_cast_args`)
  // ---------------------------------------------------------------------------

  /** The argument at this entry is annotated and the parser rejects its value. */
  predicate ParseFails(parse: (TypeTag, Value) -> Result<Value, Exception>, annotations: map<string, TypeTag>, e: Entry<Value>)
  {
    e.key in annotations && parse(annotations[e.key], e.value).Failure?
  }

  /** The value an argument ends up with: parsed when annotated, as it was otherwise. */
  function CastValue(parse: (TypeTag, Value) -> Result<Value, Exception>, annotations: map<string, TypeTag>, e: Entry<Value>): Value
    requires !ParseFails(parse, annotations, e)
  {
    if e.key in annotations then parse(annotations[e.key], e.value).value else e.value
  }

  /** `_cast_args` from entry `i` on: each annotated argument is replaced, in place, by its parsed value. */
  function CastFrom(parse: (TypeTag, Value) -> Result<Value, Exception>, annotations: map<string, TypeTag>, args: Dict<Value>, i: nat): Result<Dict<Value>, Exception>
    requires i <= |args|
    decreases |args| - i
  {
    if i == |args| then Success(args)
    else if args[i].key !in annotations then CastFrom(parse, annotations, args, i + 1)
    else
      var parsed := parse(annotations[args[i].key], args[i].value);
      if parsed.Failure? then Failure(parsed.error)
      else CastFrom(parse, annotations, args[i := Entry(args[i].key, parsed.value)], i + 1)
  }

  function CastAll(parse: (TypeTag, Value) -> Result<Value, Exception>, annotations: map<string, TypeTag>, args: Dict<Value>): Result<Dict<Value>, Exception>
  {
    CastFrom(parse, annotations, args, 0)
  }

  /** Entry `j` is the first one from `i` on whose annotated value the parser rejects. */
  predicate FirstParseFailure(parse: (TypeTag, Value) -> Result<Value, Exception>, annotations: map<string, TypeTag>, args: Dict<Value>, i: nat, j: int)
  {
    i <= j < |args| && ParseFails(parse, annotations, args[j])
    && forall l :: i <= l < j ==> !ParseFails(parse, annotations, args[l])
  }

  /**
   * Casting fails exactly when the parser rejects an annotated value, and
   * then with the parser's error for the first one.
   */
  lemma {:induction false} CastFromFails(parse: (TypeTag, Value) -> Result<Value, Exception>, annotations: map<string, TypeTag>, args: Dict<Value>, i: nat)
    requires i <= |args|
    ensures CastFrom(parse, annotations, args, i).Failure? <==>
      exists j :: i <= j < |args| && ParseFails(parse, annotations, args[j])
    ensures CastFrom(parse, annotations, args, i).Failure? ==>
      exists j :: FirstParseFailure(parse, annotations, args, i, j)
        && CastFrom(parse, annotations, args, i).error == parse(annotations[args[j].key], args[j].value).error
    decreases |args| - i
  {
    if i < |args| {
      var e := args[i];
      if ParseFails(parse, annotations, e) {
        assert FirstParseFailure(parse, annotations, args, i, i);
      } else {
        var args' := if e.key in annotations then args[i := Entry(e.key, parse(annotations[e.key], e.value).value)] else args;
        assert CastFrom(parse, annotations, args, i) == CastFrom(parse, annotations, args', i + 1);
        CastFromFails(parse, annotations, args', i + 1);
        assert forall j :: i < j < |args| ==> args'[j] == args[j];
        if CastFrom(parse, annotations, args', i + 1).Failure? {
          var j :| FirstParseFailure(parse, annotations, args', i + 1, j)
            && CastFrom(parse, annotations, args', i + 1).error == parse(annotations[args'[j].key], args'[j].value).error;
          assert FirstParseFailure(parse, annotations, args, i, j);
        }
      }
    }
  }

  /**
   * A successful cast keeps every key in its place: unannotated values stay,
   * annotated ones become `parse(type, value)`.
   */
  lemma {:induction false} CastFromResult(parse: (TypeTag, Value) -> Result<Value, Exception>, annotations: map<string, TypeTag>, args: Dict<Value>, i: nat)
    requires i <= |args|
    requires CastFrom(parse, annotations, args, i).Success?
    ensures var r := CastFrom(parse, annotations, args, i).value;
      |r| == |args|
      && (forall j :: 0 <= j < i ==> r[j] == args[j])
      && (forall j :: i <= j < |args| ==> !ParseFails(parse, annotations, args[j]) && r[j] == Entry(args[j].key, CastValue(parse, annotations, args[j])))
    decreases |args| - i
  {
    if i < |args| {
      var e := args[i];
      if e.key !in annotations {
        CastFromResult(parse, annotations, args, i + 1);
      } else {
        var args' := args[i := Entry(e.key, parse(annotations[e.key], e.value).value)];
        CastFromResult(parse, annotations, args', i + 1);
        assert forall j :: i < j < |args| ==> args'[j] == args[j];
      }
    }
  }

  /** The key sequence, and so the key set, survives casting. */
  lemma CastKeepsKeys(parse: (TypeTag, Value) -> Result<Value, Exception>, annotations: map<string, TypeTag>, args: Dict<Value>)
    requires CastAll(parse, annotations, args).Success?
    ensures Keys(CastAll(parse, annotations, args).value) == Keys(args)
    ensures forall k :: k !in annotations ==> Get(CastAll(parse, annotations, args).value, k) == Get(args, k)
  {
    var r := CastAll(parse, annotations, args).value;
    CastFromResult(parse, annotations, args, 0);
    SameKeysSameLookups(r, args, annotations.Keys);
  }

  /** Two dictionaries with the same keys in the same places, agreeing on the values of keys outside `changed`. */
  lemma {:induction false} SameKeysSameLookups(a: Dict<Value>, b: Dict<Value>, changed: set<string>)
    requires |a| == |b| && forall j :: 0 <= j < |a| ==> a[j].key == b[j].key
    requires forall j :: 0 <= j < |a| && a[j].key !in changed ==> a[j].value == b[j].value
    ensures Keys(a) == Keys(b)
    ensures forall k :: k !in changed ==> Get(a, k) == Get(b, k)
  {
    if a != [] {
      SameKeysSameLookups(a[1..], b[1..], changed);
    }
  }

  // ---------------------------------------------------------------------------
  // The body (`_parse_and_update_body`)
  // ---------------------------------------------------------------------------

  /**
   * `_parse_and_update_body`: an empty body is left as it is; otherwise it is
   * decoded as UTF-8 (a `UnicodeDecodeError` is not caught there) and parsed
   * as JSON, malformed JSON being a bad request. A body already parsed is not
   * touched again.
   */
  function UpdatedBody(rt: Runtime, body: Body): (r: Result<Body, Exception>)
    ensures body == Raw([]) ==> r == Success(body)
    ensures body.Raw? && body.bytes != [] && rt.decodeUtf8(body.bytes).None? ==>
      r == Failure(OtherError("UnicodeDecodeError"))
    ensures body.Raw? && body.bytes != [] && rt.decodeUtf8(body.bytes).Some? && rt.loads(rt.decodeUtf8(body.bytes).value).None? ==>
      r == Failure(BadRequestError(MalformedBodyMessage))
    ensures body.Raw? && body.bytes != [] && rt.decodeUtf8(body.bytes).Some? && rt.loads(rt.decodeUtf8(body.bytes).value).Some? ==>
      r == Success(Parsed(rt.loads(rt.decodeUtf8(body.bytes).value).value))
    ensures r.Success? && r.value.Raw? ==> r.value == body
  {
    if body.Parsed? || body.bytes == [] then Success(body)
    else
      var text := rt.decodeUtf8(body.bytes);
      if text.None? then Failure(OtherError("UnicodeDecodeError"))
      else
        var json := rt.loads(text.value);
        if json.None? then Failure(BadRequestError(MalformedBodyMessage))
        else Success(Parsed(json.value))
  }

  // ---------------------------------------------------------------------------
  // Writing results and errors
  // ---------------------------------------------------------------------------

  /** `_write_response`: the JSON text of `__json__()` when the result has it, of the result itself otherwise. */
  function WriteResponse(rt: Runtime, response: Value): (r: Result<string, Exception>)
    ensures r.Failure? ==> r.error == ServerError(NotSerializableMessage(rt.typeName(response)))
    ensures rt.jsonHook(response).Some? ==> (r.Success? <==> rt.dumps(rt.jsonHook(response).value).Some?)
    ensures rt.jsonHook(response).None? ==> (r.Success? <==> rt.dumps(response).Some?)
    ensures r.Success? ==> r.value == rt.dumps(if rt.jsonHook(response).Some? then rt.jsonHook(response).value else response).value
  {
    var result := if rt.jsonHook(response).Some? then rt.jsonHook(response).value else response;
    var text := rt.dumps(result);
    if text.None? then Failure(ServerError(NotSerializableMessage(rt.typeName(response))))
    else Success(text.value)
  }

  /** A response body: JSON text, or the one-key error object `{key: message}`. */
  datatype Payload = JsonText(text: string) | ErrorObject(key: string, message: string)

  datatype Response = Response(status: int, payload: Payload)

  /** `exc.message or str(exc)` */
  function ClientMessage(exc: Exception): string
    requires exc.ClientError?
  {
    if exc.message != "" then exc.message else exc.text
  }

  /** `_write_client_error` */
  function WriteClientError(errorKey: string, exc: Exception): Response
    requires exc.ClientError?
  {
    Response(exc.code, ErrorObject(errorKey, ClientMessage(exc)))
  }

  /** `_write_server_error` */
  function WriteServerError(errorKey: string): Response
  {
    Response(500, ErrorObject(errorKey, ServerErrorMessage))
  }

  /**
   * `write_error`: a client error is reported with its own code and message;
   * anything else, or no exception at all, as a 500 that reveals nothing.
   */
  function WriteError(errorKey: string, excInfo: Option<Exception>): (r: Response)
    ensures r.payload.ErrorObject? && r.payload.key == errorKey
    ensures excInfo.Some? && excInfo.value.ClientError? ==>
      r.status == excInfo.value.code && r.payload.message == ClientMessage(excInfo.value)
    ensures !(excInfo.Some? && excInfo.value.ClientError?) ==> r.status == 500 && r.payload.message == ServerErrorMessage
  {
    if excInfo.Some? && excInfo.value.ClientError? then WriteClientError(errorKey, excInfo.value)
    else WriteServerError(errorKey)
  }

  /** Two failures that are not client errors cannot be told apart by the client. */
  lemma ServerErrorsIndistinguishable(errorKey: string, e1: Exception, e2: Exception)
    requires !e1.ClientError? && !e2.ClientError?
    ensures WriteError(errorKey, Some(e1)) == WriteError(errorKey, Some(e2)) == WriteError(errorKey, None)
  {
  }

  // ---------------------------------------------------------------------------
  // The pipeline (`_handle_request`)
  // ---------------------------------------------------------------------------

  /** A call of a user handler: which one, on what request, with which keyword arguments. */
  datatype Invocation = Invocation(handler: Handler, request: Request, kwargs: Dict<Value>)

  /** What handling one request amounts to: its result, the request afterwards, and the handler call made, if any. */
  datatype Outcome = Outcome(result: Result<string, Exception>, request: Request, invoked: Option<Invocation>)

  /**
   * `_handle_request`: method check, query arguments merged over the path
   * arguments, casting, body parsing, invocation, serialisation, in that
   * order; the first failure ends it.
   */
  function Pipeline(rt: Runtime, found: Option<Endpoint>, request: Request, kwargs: Dict<Value>): Outcome
  {
    if found.None? then Outcome(Failure(MethodNotAllowedError), request, None)
    else
      var endpoint := found.value;
      var query := QueryValues(endpoint.queryArgs, request.query);
      if query.Failure? then Outcome(Failure(query.error), request, None)
      else
        var args := CastAll(rt.parse, endpoint.handler.annotations, Update(kwargs, query.value));
        if args.Failure? then Outcome(Failure(args.error), request, None)
        else
          var body := UpdatedBody(rt, request.body);
          if body.Failure? then Outcome(Failure(body.error), request, None)
          else
            var req := request.(body := body.value);
            var call := Invocation(endpoint.handler, req, args.value);
            var resp := rt.invoke(endpoint.handler, req, args.value);
            if resp.Failure? then Outcome(Failure(resp.error), req, Some(call))
            else Outcome(WriteResponse(rt, resp.value), req, Some(call))
  }

  /** The response Tornado sends for an outcome: the JSON written, or what `write_error` writes. */
  function Respond(errorKey: string, outcome: Outcome): Response
  {
    if outcome.result.Success? then Response(200, JsonText(outcome.result.value))
    else WriteError(errorKey, Some(outcome.result.error))
  }

  /** Without a handler for the method the answer is 405, before anything else is looked at. */
  lemma NoHandlerIsMethodNotAllowed(rt: Runtime, request: Request, kwargs: Dict<Value>, errorKey: string)
    ensures Pipeline(rt, None, request, kwargs) == Outcome(Failure(MethodNotAllowedError), request, None)
    ensures Respond(errorKey, Pipeline(rt, None, request, kwargs)).status == 405
  {
  }

  /** The handler runs exactly when every earlier stage succeeds, and then on the parsed body and cast arguments. */
  lemma InvokedOnlyAfterAllStages(rt: Runtime, endpoint: Endpoint, request: Request, kwargs: Dict<Value>)
    ensures var o := Pipeline(rt, Some(endpoint), request, kwargs);
      var query := QueryValues(endpoint.queryArgs, request.query);
      o.invoked.Some? <==>
        query.Success?
        && CastAll(rt.parse, endpoint.handler.annotations, Update(kwargs, query.value)).Success?
        && UpdatedBody(rt, request.body).Success?
    ensures var o := Pipeline(rt, Some(endpoint), request, kwargs);
      o.invoked.None? ==> o.request == request && o.result.Failure?
  {
  }

  /**
   * A missing required query argument is reported as a 400 naming the first
   * one missing, whatever the body holds, and the handler is not called.
   */
  lemma MissingRequiredArgumentIsBadRequest(rt: Runtime, endpoint: Endpoint, request: Request, kwargs: Dict<Value>, errorKey: string, i: int)
    requires FirstMissing(endpoint.queryArgs, request.query, i)
    ensures Pipeline(rt, Some(endpoint), request, kwargs).invoked.None?
    ensures Respond(errorKey, Pipeline(rt, Some(endpoint), request, kwargs))
         == Response(400, ErrorObject(errorKey, MissingArgumentMessage(endpoint.queryArgs[i].key)))
  {
    CollectQueryFails([], endpoint.queryArgs, request.query);
    var e := QueryValues(endpoint.queryArgs, request.query).error;
    var j :| FirstMissing(endpoint.queryArgs, request.query, j) && e == BadRequestError(MissingArgumentMessage(endpoint.queryArgs[j].key));
    FirstMissingUnique(endpoint.queryArgs, request.query, i, j);
  }

  /** There is only one first missing argument. */
  lemma FirstMissingUnique(qargs: Dict<bool>, query: map<string, string>, i: int, j: int)
    requires FirstMissing(qargs, query, i) && FirstMissing(qargs, query, j)
    ensures i == j
  {
  }

  /**
   * The handler receives every query argument the request carries, as text
   * unless annotated, and no entry at all for an absent optional argument
   * that is not also a path argument.
   */
  lemma HandlerSeesQueryArguments(rt: Runtime, endpoint: Endpoint, request: Request, kwargs: Dict<Value>)
    requires UniqueKeys(endpoint.queryArgs)
    requires Pipeline(rt, Some(endpoint), request, kwargs).invoked.Some?
    ensures var args := Pipeline(rt, Some(endpoint), request, kwargs).invoked.value.kwargs;
      forall k :: k in Keys(endpoint.queryArgs) && k in request.query && k !in endpoint.handler.annotations ==>
        Get(args, k) == Some(Str(request.query[k]))
    ensures var args := Pipeline(rt, Some(endpoint), request, kwargs).invoked.value.kwargs;
      forall k :: k in Keys(endpoint.queryArgs) && k !in request.query && k !in Keys(kwargs) ==> k !in Keys(args)
  {
    var query := InvokedWithCastArguments(rt, endpoint, request, kwargs);
    CollectQueryContents([], endpoint.queryArgs, request.query);
    assert Keys<Value>([]) == {};
    assert UniqueKeys<Value>([]);
    CastKeepsKeys(rt.parse, endpoint.handler.annotations, Update(kwargs, query));
  }

  /** The handler is called with the query values merged over the path arguments, then cast. */
  lemma InvokedWithCastArguments(rt: Runtime, endpoint: Endpoint, request: Request, kwargs: Dict<Value>) returns (query: Dict<Value>)
    requires Pipeline(rt, Some(endpoint), request, kwargs).invoked.Some?
    ensures QueryValues(endpoint.queryArgs, request.query) == Success(query)
    ensures CastAll(rt.parse, endpoint.handler.annotations, Update(kwargs, query)).Success?
    ensures Pipeline(rt, Some(endpoint), request, kwargs).invoked.value.kwargs
         == CastAll(rt.parse, endpoint.handler.annotations, Update(kwargs, query)).value
  {
    query := QueryValues(endpoint.queryArgs, request.query).value;
  }

  /** A body that is UTF-8 but not JSON is a bad request, and the handler is not called. */
  lemma MalformedBodyIsBadRequest(rt: Runtime, endpoint: Endpoint, request: Request, kwargs: Dict<Value>, errorKey: string)
    requires request.body.Raw? && request.body.bytes != []
    requires rt.decodeUtf8(request.body.bytes).Some? && rt.loads(rt.decodeUtf8(request.body.bytes).value).None?
    requires QueryValues(endpoint.queryArgs, request.query).Success?
    requires CastAll(rt.parse, endpoint.handler.annotations, Update(kwargs, QueryValues(endpoint.queryArgs, request.query).value)).Success?
    ensures Pipeline(rt, Some(endpoint), request, kwargs).invoked.None?
    ensures Respond(errorKey, Pipeline(rt, Some(endpoint), request, kwargs)) == Response(400, ErrorObject(errorKey, MalformedBodyMessage))
  {
  }

  /**
   * Casting comes before the body: a cast failure is what is reported, whatever
   * the body holds, and the handler is not called.
   */
  lemma CastFailureIsReported(rt: Runtime, endpoint: Endpoint, request: Request, kwargs: Dict<Value>, errorKey: string)
    requires QueryValues(endpoint.queryArgs, request.query).Success?
    requires CastAll(rt.parse, endpoint.handler.annotations, Update(kwargs, QueryValues(endpoint.queryArgs, request.query).value)).Failure?
    ensures var o := Pipeline(rt, Some(endpoint), request, kwargs);
      o.invoked.None? && o.request == request
    ensures var e := CastAll(rt.parse, endpoint.handler.annotations, Update(kwargs, QueryValues(endpoint.queryArgs, request.query).value)).error;
      Respond(errorKey, Pipeline(rt, Some(endpoint), request, kwargs)) == WriteError(errorKey, Some(e))
  {
  }

  /** When the parser reports every rejection as a 400 client error, a failed coercion is a 400, never a 500. */
  lemma CastFailureIs400(rt: Runtime, endpoint: Endpoint, request: Request, kwargs: Dict<Value>, errorKey: string)
    requires forall t, v :: rt.parse(t, v).Failure? ==> rt.parse(t, v).error.ClientError? && rt.parse(t, v).error.code == 400
    requires QueryValues(endpoint.queryArgs, request.query).Success?
    requires CastAll(rt.parse, endpoint.handler.annotations, Update(kwargs, QueryValues(endpoint.queryArgs, request.query).value)).Failure?
    ensures Respond(errorKey, Pipeline(rt, Some(endpoint), request, kwargs)).status == 400
  {
    var args := Update(kwargs, QueryValues(endpoint.queryArgs, request.query).value);
    CastFromFails(rt.parse, endpoint.handler.annotations, args, 0);
  }

  /** An exception raised by the handler is answered by `write_error`. */
  lemma HandlerExceptionIsReported(rt: Runtime, endpoint: Endpoint, request: Request, kwargs: Dict<Value>, errorKey: string)
    requires Pipeline(rt, Some(endpoint), request, kwargs).invoked.Some?
    requires var call := Pipeline(rt, Some(endpoint), request, kwargs).invoked.value;
      rt.invoke(call.handler, call.request, call.kwargs).Failure?
    ensures var call := Pipeline(rt, Some(endpoint), request, kwargs).invoked.value;
      Respond(errorKey, Pipeline(rt, Some(endpoint), request, kwargs))
      == WriteError(errorKey, Some(rt.invoke(call.handler, call.request, call.kwargs).error))
  {
  }

  /** A body that is not UTF-8 escapes as an unexpected exception: the client sees a bare 500. */
  lemma UndecodableBodyIsServerError(rt: Runtime, endpoint: Endpoint, request: Request, kwargs: Dict<Value>, errorKey: string)
    requires request.body.Raw? && request.body.bytes != [] && rt.decodeUtf8(request.body.bytes).None?
    requires QueryValues(endpoint.queryArgs, request.query).Success?
    requires CastAll(rt.parse, endpoint.handler.annotations, Update(kwargs, QueryValues(endpoint.queryArgs, request.query).value)).Success?
    ensures Respond(errorKey, Pipeline(rt, Some(endpoint), request, kwargs)) == Response(500, ErrorObject(errorKey, ServerErrorMessage))
  {
  }

  /** A result that cannot be serialised is a 500 whose body does not name its type. */
  lemma UnserialisableResultIsServerError(rt: Runtime, endpoint: Endpoint, request: Request, kwargs: Dict<Value>, errorKey: string)
    requires Pipeline(rt, Some(endpoint), request, kwargs).invoked.Some?
    requires var call := Pipeline(rt, Some(endpoint), request, kwargs).invoked.value;
      var resp := rt.invoke(call.handler, call.request, call.kwargs);
      resp.Success? && WriteResponse(rt, resp.value).Failure?
    ensures Respond(errorKey, Pipeline(rt, Some(endpoint), request, kwargs)) == Response(500, ErrorObject(errorKey, ServerErrorMessage))
  {
  }

  // ---------------------------------------------------------------------------
  // The handlers
  // ---------------------------------------------------------------------------

  /** The endpoint a `HandlerDef` gives the dispatcher. */
  function EndpointOf(handlerDef: Option<HandlerDef>): Option<Endpoint>
    reads if handlerDef.Some? then {handlerDef.value} else {}
  {
    if handlerDef.None? then None else Some(Endpoint(handlerDef.value.handler, handlerDef.value.queryArgs))
  }

  function MethodHandler(methods: map<string, HandlerDef>, key: string): Option<HandlerDef>
  {
    if key in methods then Some(methods[key]) else None
  }

  class MainHandler {
    const getHandler: Option<HandlerDef>
    const postHandler: Option<HandlerDef>
    const putHandler: Option<HandlerDef>
    const deleteHandler: Option<HandlerDef>
    const rt: Runtime
    const errorKey: string
    var request: Request
    /** The user-handler calls made so far. */
    var invocations: seq<Invocation>

    /** `__init__`: the handlers registered under one URI, by lower-case method name. */
    constructor (methods: map<string, HandlerDef>, rt: Runtime, errorKey: string, request: Request)
      ensures getHandler == MethodHandler(methods, "get") && postHandler == MethodHandler(methods, "post")
      ensures putHandler == MethodHandler(methods, "put") && deleteHandler == MethodHandler(methods, "delete")
      ensures this.rt == rt && this.errorKey == errorKey && this.request == request && invocations == []
    {
      getHandler := MethodHandler(methods, "get");
      postHandler := MethodHandler(methods, "post");
      putHandler := MethodHandler(methods, "put");
      deleteHandler := MethodHandler(methods, "delete");
      this.rt := rt;
      this.errorKey := errorKey;
      this.request := request;
      invocations := [];
    }

    function HandlerFor(verb: Verb): Option<HandlerDef>
    {
      match verb
      case GET => getHandler
      case POST => postHandler
      case PUT => putHandler
      case DELETE => deleteHandler
    }

    /** `_get_query_args` */
    method GetQueryArgs(handlerDef: HandlerDef) returns (r: Result<Dict<Value>, Exception>)
      ensures r == QueryValues(handlerDef.queryArgs, request.query)
    {
      var qargs := handlerDef.queryArgs;
      var queryArgs: Dict<Value> := [];
      var i := 0;
      while i < |qargs|
        invariant 0 <= i <= |qargs|
        invariant QueryValues(qargs, request.query) == CollectQuery(queryArgs, qargs[i..], request.query)
      {
        assert qargs[i..][1..] == qargs[i + 1..];
        var qarg := qargs[i].key;
        var isRequired := qargs[i].value;
        if qarg in request.query {
          queryArgs := Put(queryArgs, qarg, Str(request.query[qarg]));
        } else if isRequired {
          return Failure(BadRequestError(MissingArgumentMessage(qarg)));
        }
        i := i + 1;
      }
      return Success(queryArgs);
    }

    /** `_cast_args`: the arguments with every annotated one parsed. */
    method CastArgs(handler: Handler, args: Dict<Value>) returns (r: Result<Dict<Value>, Exception>)
      ensures r == CastAll(rt.parse, handler.annotations, args)
    {
      var argTypes := handler.annotations;
      var cast := args;
      var i := 0;
      while i < |cast|
        invariant 0 <= i <= |cast| == |args|
        invariant CastAll(rt.parse, argTypes, args) == CastFrom(rt.parse, argTypes, cast, i)
      {
        var arg := cast[i].key;
        if arg in argTypes {
          var parsed := rt.parse(argTypes[arg], cast[i].value);
          if parsed.Failure? {
            return Failure(parsed.error);
          }
          cast := cast[i := Entry(arg, parsed.value)];
        }
        i := i + 1;
      }
      return Success(cast);
    }

    /** `_parse_and_update_body` */
    method ParseAndUpdateBody() returns (err: Option<Exception>)
      modifies this`request
      ensures UpdatedBody(rt, old(request.body)).Failure? ==>
        err == Some(UpdatedBody(rt, old(request.body)).error) && request == old(request)
      ensures UpdatedBody(rt, old(request.body)).Success? ==>
        err == None && request == old(request).(body := UpdatedBody(rt, old(request.body)).value)
    {
      if request.body.Raw? && request.body.bytes != [] {
        var text := rt.decodeUtf8(request.body.bytes);
        if text.None? {
          return Some(OtherError("UnicodeDecodeError"));
        }
        var json := rt.loads(text.value);
        if json.None? {
          return Some(BadRequestError(MalformedBodyMessage));
        }
        request := request.(body := Parsed(json.value));
      }
      return None;
    }

    /** `_handle_request` */
    method HandleRequest(handlerDef: Option<HandlerDef>, kwargs: Dict<Value>) returns (r: Result<string, Exception>)
      modifies this`request, this`invocations
      ensures var o := Pipeline(rt, EndpointOf(handlerDef), old(request), kwargs);
        r == o.result && request == o.request
        && invocations == old(invocations) + (if o.invoked.Some? then [o.invoked.value] else [])
    {
      if handlerDef.None? {
        return Failure(MethodNotAllowedError);
      }
      var handler := handlerDef.value.handler;
      var query := GetQueryArgs(handlerDef.value);
      if query.Failure? {
        return Failure(query.error);
      }
      var args := CastArgs(handler, Update(kwargs, query.value));
      if args.Failure? {
        return Failure(args.error);
      }
      var err := ParseAndUpdateBody();
      if err.Some? {
        return Failure(err.value);
      }
      invocations := invocations + [Invocation(handler, request, args.value)];
      var resp := rt.invoke(handler, request, args.value);
      if resp.Failure? {
        return Failure(resp.error);
      }
      r := WriteResponse(rt, resp.value);
    }

    /** `get`, `post`, `put`, `delete`, and Tornado turning the outcome into a response. */
    method Serve(verb: Verb, kwargs: Dict<Value>) returns (response: Response)
      modifies this`request, this`invocations
      ensures var o := Pipeline(rt, EndpointOf(HandlerFor(verb)), old(request), kwargs);
        response == Respond(errorKey, o) && request == o.request
        && invocations == old(invocations) + (if o.invoked.Some? then [o.invoked.value] else [])
    {
      var r := HandleRequest(HandlerFor(verb), kwargs);
      if r.Success? {
        response := Response(200, JsonText(r.value));
      } else {
        response := WriteError(errorKey, Some(r.error));
      }
    }
  }

  /** `DefaultHandler`: what answers requests that match no route. */
  class DefaultHandler {
    const errorKey: string

    constructor (errorKey: string)
      ensures this.errorKey == errorKey
    {
      this.errorKey := errorKey;
    }

    /** `_handle_request`, whatever the method and arguments. */
    method HandleRequest(kwargs: Dict<Value>) returns (r: Result<string, Exception>)
      ensures r == Failure(NotFoundError)
    {
      return Failure(NotFoundError);
    }

    method Serve(verb: Verb, kwargs: Dict<Value>) returns (response: Response)
      ensures response.status == 404 && response.payload == ErrorObject(errorKey, ClientMessage(NotFoundError))
    {
      var r := HandleRequest(kwargs);
      response := WriteError(errorKey, Some(r.error));
    }
  }
}
