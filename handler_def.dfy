/**
 * `HandlerDef`: the argument contract of a user handler. The handler's
 * parameters after the first (which receives the request) are split into the
 * path arguments named by the route template's captures and the query
 * arguments, each marked required when it has no default value.
 */
module HandlerDefs {
  import opened Wrappers
  import opened OrderedDict

  /** A handler parameter as `inspect.signature` reports it. */
  datatype Param = Param(name: string, hasDefault: bool)

  /** A type annotation object, handed to the argument parser unexamined. */
  datatype TypeTag = TypeTag(name: string)

  /** A resource type a handler consumes or produces. */
  datatype Resource = Resource(name: string)

  /**
   * A user handler function, as far as the core looks at it: its `__name__`,
   * its signature, its (non-empty) annotations, and its own `consumes` /
   * `produces` attributes (`None` when the attribute is absent, `Some(None)`
   * when it is present and set to `None`).
   */
  datatype Handler = Handler(
    name: string,
    signature: seq<Param>,
    annotations: map<string, TypeTag>,
    consumesAttr: Option<Option<Resource>>,
    producesAttr: Option<Option<Resource>>)

  datatype DefinitionError =
    | MustNotBeOptional(arg: string, handlerName: string)
    | MustBeExpected(arg: string, handlerName: string)
  {
    /** The error's text: it quotes the argument first and the handler's name last. */
    function Message(): (r: string)
      ensures |r| > 15 + |arg| + 7 + |handlerName|
      ensures r[..15] == "Path argument '" && r[15..15 + |arg|] == arg
      ensures r[|r| - 1 - |handlerName|..|r| - 1] == handlerName && r[|r| - 1] == '\''
    {
      match this
      case MustNotBeOptional(arg, h) => "Path argument '" + arg + "' must not be optional in '" + h + "'"
      case MustBeExpected(arg, h) => "Path argument '" + arg + "' must be expected by '" + h + "'"
    }
  }

  /** The two rejections of one argument by one handler read differently. */
  lemma RejectionMessagesDiffer(arg: string, handlerName: string)
    ensures MustNotBeOptional(arg, handlerName).Message() != MustBeExpected(arg, handlerName).Message()
  {
    var i := 15 + |arg| + 7;
    assert MustNotBeOptional(arg, handlerName).Message()[i] == 'n';
    assert MustBeExpected(arg, handlerName).Message()[i] == 'b';
  }

  function Names(params: seq<Param>): set<string>
  {
    set p | p in params :: p.name
  }

  function Elements(s: seq<string>): set<string>
  {
    set x | x in s
  }

  /** Python never lets two parameters of one signature share a name. */
  predicate DistinctNames(params: seq<Param>)
  {
    forall i, j :: 0 <= i < j < |params| ==> params[i].name != params[j].name
  }

  /** `_params`: every parameter but the first, in signature order. */
  function Params(signature: seq<Param>): (params: seq<Param>)
    ensures |params| == if signature == [] then 0 else |signature| - 1
    ensures forall i :: 0 <= i < |params| ==> params[i] == signature[i + 1]
  {
    if signature == [] then [] else signature[1..]
  }

  /** `_params[name]`, when there is such a parameter. */
  function Lookup(params: seq<Param>, name: string): (r: Option<Param>)
    ensures r.Some? ==> r.value in params && r.value.name == name
    ensures r.None? <==> name !in Names(params)
  {
    if params == [] then None
    else if params[0].name == name then Some(params[0])
    else
      var r := Lookup(params[1..], name);
      assert Names(params) == {params[0].name} + Names(params[1..]);
      r
  }

  /** A capture is bound by a parameter of that name that has no default. */
  predicate Accepts(params: seq<Param>, capture: string)
  {
    Lookup(params, capture).Some? && !Lookup(params, capture).value.hasDefault
  }

  /** The error `_extract_path_args` raises for a capture it does not accept. */
  function Rejection(params: seq<Param>, capture: string, handlerName: string): DefinitionError
  {
    if Lookup(params, capture).None? then MustBeExpected(capture, handlerName)
    else MustNotBeOptional(capture, handlerName)
  }

  /** Capture `i` is the first one that is not accepted. */
  predicate FirstRejected(params: seq<Param>, captures: seq<string>, i: int)
  {
    0 <= i < |captures| && !Accepts(params, captures[i])
    && forall j :: 0 <= j < i ==> Accepts(params, captures[j])
  }

  /** The outcome of `_extract_path_args`: no error, or the error for the first capture not accepted. */
  function PathArgError(params: seq<Param>, captures: seq<string>, handlerName: string): (r: Option<DefinitionError>)
    ensures r.None? <==> forall i :: 0 <= i < |captures| ==> Accepts(params, captures[i])
    ensures r.Some? ==> exists i :: FirstRejected(params, captures, i) && r.value == Rejection(params, captures[i], handlerName)
  {
    if captures == [] then None
    else if !Accepts(params, captures[0]) then
      assert FirstRejected(params, captures, 0);
      Some(Rejection(params, captures[0], handlerName))
    else
      var r := PathArgError(params, captures[1..], handlerName);
      assert forall i :: 1 <= i < |captures| ==> captures[i] == captures[1..][i - 1];
      assert r.Some? ==> exists i :: FirstRejected(params, captures, i) && r.value == Rejection(params, captures[i], handlerName) by {
        if r.Some? {
          var k :| FirstRejected(params, captures[1..], k) && r.value == Rejection(params, captures[1..][k], handlerName);
          assert FirstRejected(params, captures, k + 1);
        }
      }
      r
  }

  /** What `_extract_query_arguments` leaves in `query_args`, starting from `acc`, after visiting `params`. */
  function QueryArgsFrom(acc: Dict<bool>, params: seq<Param>, pathArgs: seq<string>): Dict<bool>
    decreases |params|
  {
    if params == [] then acc
    else
      var p := params[0];
      var acc' := if p.name in pathArgs then acc else Put(acc, p.name, !p.hasDefault);
      QueryArgsFrom(acc', params[1..], pathArgs)
  }

  lemma NamesCons(params: seq<Param>)
    requires params != []
    ensures Names(params) == {params[0].name} + Names(params[1..])
  {
  }

  /** The query arguments are `acc`'s keys plus the parameters that are not path arguments. */
  lemma {:induction false} QueryArgsFromKeys(acc: Dict<bool>, params: seq<Param>, pathArgs: seq<string>)
    ensures Keys(QueryArgsFrom(acc, params, pathArgs)) == Keys(acc) + (Names(params) - Elements(pathArgs))
    ensures UniqueKeys(acc) ==> UniqueKeys(QueryArgsFrom(acc, params, pathArgs))
    decreases |params|
  {
    if params != [] {
      var p := params[0];
      var acc' := if p.name in pathArgs then acc else Put(acc, p.name, !p.hasDefault);
      QueryArgsFromKeys(acc', params[1..], pathArgs);
      NamesCons(params);
    }
  }

  /** Entries of `acc` that no parameter outside the path arguments names are kept as they are. */
  lemma {:induction false} QueryArgsFromKeeps(acc: Dict<bool>, params: seq<Param>, pathArgs: seq<string>, k: string)
    requires k !in Names(params) - Elements(pathArgs)
    ensures Get(QueryArgsFrom(acc, params, pathArgs), k) == Get(acc, k)
    decreases |params|
  {
    if params != [] {
      var p := params[0];
      var acc' := if p.name in pathArgs then acc else Put(acc, p.name, !p.hasDefault);
      NamesCons(params);
      QueryArgsFromKeeps(acc', params[1..], pathArgs, k);
    }
  }

  /** A query argument is required exactly when its parameter has no default. */
  lemma {:induction false} QueryArgsFromRequired(acc: Dict<bool>, params: seq<Param>, pathArgs: seq<string>, k: string)
    requires DistinctNames(params)
    requires k in Names(params) - Elements(pathArgs)
    ensures Get(QueryArgsFrom(acc, params, pathArgs), k) == Some(!Lookup(params, k).value.hasDefault)
    decreases |params|
  {
    var p := params[0];
    var acc' := if p.name in pathArgs then acc else Put(acc, p.name, !p.hasDefault);
    var rest := params[1..];
    NamesCons(params);
    assert DistinctNames(rest) && p.name !in Names(rest) by {
      assert forall i :: 0 <= i < |rest| ==> rest[i] == params[i + 1];
    }
    if k == p.name {
      QueryArgsFromKeeps(acc', rest, pathArgs, k);
    } else {
      QueryArgsFromRequired(acc', rest, pathArgs, k);
    }
  }

  /** `_extract_query_arguments` after a successful `_extract_path_args`, from an empty `query_args`. */
  function QueryArgsOf(params: seq<Param>, pathArgs: seq<string>): Dict<bool>
  {
    QueryArgsFrom([], params, pathArgs)
  }

  /**
   * Once every capture is accepted, path and query arguments partition the
   * parameters, and a query argument is required exactly when it has no default.
   */
  lemma ContractPartitionsParams(params: seq<Param>, captures: seq<string>, handlerName: string)
    requires PathArgError(params, captures, handlerName).None?
    ensures Keys(QueryArgsOf(params, captures)) == Names(params) - Elements(captures)
    ensures Keys(QueryArgsOf(params, captures)) * Elements(captures) == {}
    ensures Elements(captures) + Keys(QueryArgsOf(params, captures)) == Names(params)
    ensures UniqueKeys(QueryArgsOf(params, captures))
    ensures DistinctNames(params) ==>
      forall k :: k in Keys(QueryArgsOf(params, captures)) ==>
        Get(QueryArgsOf(params, captures), k) == Some(!Lookup(params, k).value.hasDefault)
  {
    QueryArgsFromKeys([], params, captures);
    assert Keys<bool>([]) == {};
    forall c | c in Elements(captures) ensures c in Names(params) {
      var i :| 0 <= i < |captures| && captures[i] == c;
      assert Accepts(params, captures[i]);
    }
    if DistinctNames(params) {
      forall k | k in Keys(QueryArgsOf(params, captures))
        ensures Get(QueryArgsOf(params, captures), k) == Some(!Lookup(params, k).value.hasDefault)
      {
        QueryArgsFromRequired([], params, captures, k);
      }
    }
  }

  /**
   * The first parameter takes no part in the contract: it is never a query
   * argument, and a capture of that name is rejected as unexpected.
   */
  lemma FirstParameterIgnored(signature: seq<Param>, captures: seq<string>, handlerName: string)
    requires DistinctNames(signature) && signature != []
    ensures signature[0].name !in Keys(QueryArgsOf(Params(signature), captures))
    ensures signature[0].name in captures ==> PathArgError(Params(signature), captures, handlerName).Some?
  {
    var params := Params(signature);
    var first := signature[0].name;
    forall p | p in params ensures p.name != first {
      var i :| 0 <= i < |params| && params[i] == p;
      assert signature[i + 1] == p;
    }
    QueryArgsFromKeys([], params, captures);
    assert Keys<bool>([]) == {};
    if first in captures {
      var i :| 0 <= i < |captures| && captures[i] == first;
      assert !Accepts(params, captures[i]);
    }
  }

  /** `HandlerDef`: a handler with the argument contract worked out for its route. */
  class HandlerDef {
    const uri: string
    const handler: Handler
    /** The capture names of `uri`, taken from the route template. */
    const captures: seq<string>
    /** `_params` */
    const params: seq<Param>
    var pathArgs: seq<string>
    var queryArgs: Dict<bool>
    var consumes: Option<Resource>
    var produces: Option<Resource>

    /** The fields as `__init__` sets them before extracting the arguments. */
    constructor Init(uri: string, handler: Handler, captures: seq<string>)
      ensures this.uri == uri && this.handler == handler && this.captures == captures
      ensures params == Params(handler.signature)
      ensures pathArgs == [] && queryArgs == []
      ensures consumes == None && produces == None
    {
      this.uri := uri;
      this.handler := handler;
      this.captures := captures;
      params := Params(handler.signature);
      pathArgs := [];
      queryArgs := [];
      consumes := None;
      produces := None;
    }

    /** `_extract_path_args`: the path arguments are the captures, each of which must be accepted. */
    method ExtractPathArgs() returns (err: Option<DefinitionError>)
      modifies this`pathArgs
      ensures pathArgs == captures
      ensures err == PathArgError(params, captures, handler.name)
    {
      pathArgs := captures;
      var i := 0;
      while i < |pathArgs|
        invariant 0 <= i <= |pathArgs| && pathArgs == captures
        invariant PathArgError(params, captures, handler.name) == PathArgError(params, captures[i..], handler.name)
      {
        assert captures[i..][1..] == captures[i + 1..];
        var pathArg := pathArgs[i];
        var param := Lookup(params, pathArg);
        if param.Some? {
          if param.value.hasDefault {
            return Some(MustNotBeOptional(pathArg, handler.name));
          }
        } else {
          return Some(MustBeExpected(pathArg, handler.name));
        }
        i := i + 1;
      }
      return None;
    }

    /** `_extract_query_arguments`: every parameter that is not a path argument becomes a query argument. */
    method ExtractQueryArguments()
      modifies this`queryArgs
      ensures queryArgs == QueryArgsFrom(old(queryArgs), params, pathArgs)
    {
      var i := 0;
      while i < |params|
        invariant 0 <= i <= |params|
        invariant QueryArgsFrom(old(queryArgs), params, pathArgs) == QueryArgsFrom(queryArgs, params[i..], pathArgs)
      {
        assert params[i..][1..] == params[i + 1..];
        var param := params[i];
        if param.name !in pathArgs {
          queryArgs := Put(queryArgs, param.name, !param.hasDefault);
        }
        i := i + 1;
      }
    }

    /** `_extract_arguments` */
    method ExtractArguments() returns (err: Option<DefinitionError>)
      modifies this`pathArgs, this`queryArgs
      ensures pathArgs == captures
      ensures err == PathArgError(params, captures, handler.name)
      ensures err.None? ==> queryArgs == QueryArgsFrom(old(queryArgs), params, captures)
      ensures err.Some? ==> queryArgs == old(queryArgs)
    {
      err := ExtractPathArgs();
      if err.Some? {
        return;
      }
      ExtractQueryArguments();
    }

    /** `HandlerDef(uri, handler)`: the definition, or the `DefinitionError` its construction raises. */
    static method Create(uri: string, handler: Handler, captures: seq<string>) returns (r: Result<HandlerDef, DefinitionError>)
      ensures r.Failure? <==> PathArgError(Params(handler.signature), captures, handler.name).Some?
      ensures r.Failure? ==> r.error == PathArgError(Params(handler.signature), captures, handler.name).value
      ensures r.Success? ==> fresh(r.value)
      ensures r.Success? ==> r.value.uri == uri && r.value.handler == handler && r.value.captures == captures
      ensures r.Success? ==> r.value.params == Params(handler.signature) && r.value.pathArgs == captures
      ensures r.Success? ==> r.value.queryArgs == QueryArgsOf(Params(handler.signature), captures)
      ensures r.Success? ==> r.value.consumes == None && r.value.produces == None
    {
      var hd := new HandlerDef.Init(uri, handler, captures);
      var err := hd.ExtractArguments();
      if err.Some? {
        return Failure(err.value);
      }
      return Success(hd);
    }
  }
}
