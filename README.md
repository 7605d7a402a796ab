# calm, modelled in Dafny

Calm is a thin layer over Tornado. A developer decorates plain functions with
`@app.get("/users/:id")` and similar decorators, and calm takes care of the rest:

- it turns the colon-style path template into a regular expression with named
  captures;
- it works out from the function's signature which parameters are path
  arguments and which are query arguments (required or optional);
- it registers the function in a route map from URI to HTTP method;
- at request time, its `MainHandler` collects the query arguments, casts them
  through the argument parser by the function's annotations, parses the JSON
  body, calls the function and writes its JSON result;
- it reports failures as JSON error objects: a client error with its own code
  and message, any other failure as a 500 that reveals nothing.

The project models that core and proves what it promises. It has six modules:

| file | module | models |
|---|---|---|
| `wrappers.dfy` | `Wrappers` | `Option` and `Result` |
| `ordered_dict.dfy` | `OrderedDict` | Python's insertion-ordered `dict` as a sequence of entries: item assignment and `update` |
| `uri_template.dfy` | `UriTemplate` | `CalmApp._normalize_uri` |
| `handler_def.dfy` | `HandlerDefs` | `HandlerDef`, the argument contract of a handler |
| `routing.dfy` | `Routing` | `CalmApp`: its configuration, route map, `_add_route` and the method decorators |
| `dispatch.dfy` | `Dispatch` | `MainHandler`'s request pipeline and error writers, and `DefaultHandler` |

Things the source does step by step are imperative Dafny, proved against
specification functions:

- the rewrite loop of `_normalize_uri`;
- `HandlerDef`'s field-setting extraction;
- `CalmApp`'s route map and configuration;
- `MainHandler`'s argument loops and body update.

The error writers and the order of the pipeline are functions.

Foreign code is not modelled, only passed in. A `Runtime` value carries it as
uninterpreted functions:

- the argument parser;
- UTF-8 decoding;
- `json.loads` and `json.dumps`;
- the `__json__` hook;
- the handler call itself;
- `type(x).__name__`.

Dictionaries whose iteration order decides which error comes first are
sequences of entries, not maps. These are `query_args`, the query values and
the keyword arguments.

**The rewrite in `_normalize_uri`.** The source replaces placeholders with one
`str.replace` per name found. The model keeps that loop as written.

- `NormalizedMatchesReference` proves it equals a single-pass rewrite,
  `CompileTemplate`, whenever no placeholder name is a prefix of another.
- `PrefixNameCorrupts` proves what happens in one family of templates where a
  name is a prefix of another. For `/:n/:ny`, the
  replace for `n` also rewrites the front of `:ny`. The result has a second
  group named `n` followed by the stray text `y`, where the single-pass
  rewrite has a group `ny`.
- With `n` empty, the same lemma covers the empty placeholder `/:`. Its
  replace pattern is a bare `:`, which rewrites the colon of every later
  placeholder.

## Model

| member | source | states |
|---|---|---|
| OrderedDict.Put | calm/handler.py:63 | `d[k] = v`: `k` now maps to `v`, every other key keeps its value, the key set gains `k`, a new key is appended at the end, and unique keys stay unique |
| OrderedDict.PutInPlace | calm/handler.py:63 | assigning to a key already present overwrites its entry at that key's position (`IndexOf`), so the order is kept |
| OrderedDict.IndexOf | calm/handler.py:63 | the position of the first entry carrying a key that is present |
| OrderedDict.Update | calm/handler.py:103 | `d.update(e)`: the keys are the union, and each key takes its value from `e` when `e` has it and from `d` otherwise |
| OrderedDict.UpdateOrder | calm/handler.py:103 | `d.update(e)` keeps `d`'s keys at their positions and then appends `NewEntries(d, e)`, the entries only `e` has, in `e`'s order. So after `kwargs.update(query_args)` the path arguments come first, and `_cast_args` meets them first |
| OrderedDict.NewEntries | calm/handler.py:103 | reference for the entries `update` appends; `UpdateOrder` ties it to `Update` |
| UriTemplate.StripLeading | calm/core.py:121 | `lstrip('/')` returns a suffix of its input that does not start with `/` |
| UriTemplate.StripLeadingRemovesSlashes | calm/core.py:121 | everything `lstrip('/')` removes is `/` |
| UriTemplate.StripTrailing | calm/core.py:121 | `rstrip('/')` returns a prefix of its input that does not end with `/` |
| UriTemplate.StripTrailingRemovesSlashes | calm/core.py:121 | everything `rstrip('/')` removes is `/` |
| UriTemplate.Strip | calm/core.py:121 | `strip('/')` gives text that neither starts nor ends with `/`; `StripIgnoresSlashes` and `StripUnslashed` pin it down fully |
| UriTemplate.Join | calm/core.py:120-122 | `'/'.join(...)`; `NormalizedWithoutPlaceholders` states the joined template for colon-free fragments |
| UriTemplate.Wrapped | calm/core.py:120-123 | `'/' + ... + '/?'` around the joined fragments; framed by `NormalizedIsFramed` |
| UriTemplate.NameRun | calm/core.py:39 | the name `URI_REGEX` captures after a `:` is the longest run of characters other than `/`, `?` and `:` |
| UriTemplate.PlaceholderNames | calm/core.py:125 | every name `findall` returns is made of name characters only |
| UriTemplate.NamesAtColons | calm/core.py:39 | reference for `findall`: every `:`, in order, contributes the name run that follows it |
| UriTemplate.PlaceholderNamesAtColons | calm/core.py:125 | `findall` returns one name per `:` of the template, in order, each the longest name run after its colon (`NamesAtColons`); it returns none exactly when the template has no `:` |
| UriTemplate.ReplaceAll | calm/core.py:127-130 | `str.replace`, left to right and non-overlapping; characterised by `ReplaceSkipsColonFree`, `ReplaceKeepsTail` and `ReplaceOneName` |
| UriTemplate.Rewrite | calm/core.py:126-130 | the replace loop over the names found; `RewriteSubstitutes` states what it rewrites |
| UriTemplate.NormalizedUri | calm/core.py:118-132 | the value `_normalize_uri` returns; `NormalizedIsFramed`, `NormalizedWithoutPlaceholders`, `ExtraSlashesIgnored`, `NormalizedMatchesReference` and `PrefixNameCorrupts` state its properties |
| UriTemplate.NormalizeUri | calm/core.py:118-132 | the rewrite loop returns the specified normalised URI, and that URI starts with `/` and ends with `/?` |
| UriTemplate.NormalizedIsFramed | calm/core.py:120-123 | whatever the fragments, the output starts with `/` and ends with `/?` |
| UriTemplate.ReplaceKeepsFrame | calm/core.py:127-130 | one placeholder replace keeps a `/`...`/?` string framed |
| UriTemplate.NormalizedWithoutPlaceholders | calm/core.py:120-123 | fragments without `:` give exactly `'/' + '/'.join(f.strip('/') ...) + '/?'` |
| UriTemplate.StripIgnoresSlashes | calm/core.py:121 | any number of slashes before and after a fragment are stripped away |
| UriTemplate.ExtraSlashesIgnored | calm/core.py:120-123 | adding slashes around any one fragment never changes the normalised URI |
| UriTemplate.ReplaceSkipsColonFree | calm/core.py:127-130 | text without `:` passes through a placeholder replace unchanged |
| UriTemplate.ReplaceKeepsTail | calm/core.py:127-130 | a replace never matches across a tail made of characters the pattern lacks |
| UriTemplate.CompileTemplateRewritesAll | calm/core.py:125-130 | the single-pass rewrite leaves no `:` behind and is the identity on text without `:` |
| UriTemplate.ReplaceOneName | calm/core.py:127-130 | with prefix-free names, replacing `:a` rewrites exactly the placeholders named `a` and no other text |
| UriTemplate.RewriteSubstitutes | calm/core.py:126-130 | with prefix-free names, the replace loop over a list of names rewrites exactly the placeholders with those names |
| UriTemplate.NormalizedMatchesReference | calm/core.py:125-130 | with prefix-free names, every `:name` becomes `(?P<name>[^\/\?]*)` and all text outside placeholders is unchanged |
| UriTemplate.PrefixNameCorrupts | calm/core.py:126-130 | for `/:n/:ny`, including an empty `n`, the loop yields two groups named `n` followed by a stray `y`; the single-pass rewrite yields groups `n` and `ny` |
| HandlerDefs.Params | calm/core.py:234-238 | `_params` is exactly parameters 2..n of the signature, in order |
| HandlerDefs.Lookup | calm/core.py:254-255 | a parameter is found by name exactly when the signature has one of that name |
| HandlerDefs.DefinitionError.Message | calm/core.py:256-268 | the error text begins "Path argument '" and the argument's name, and ends with the handler's name in quotes |
| HandlerDefs.RejectionMessagesDiffer | calm/core.py:256-268 | the "must not be optional" and "must be expected" texts for one argument and one handler differ |
| HandlerDefs.Rejection | calm/core.py:253-269 | which `DefinitionError` a rejected capture raises; used by `PathArgError`'s contract |
| HandlerDefs.QueryArgsFrom | calm/core.py:277-279 | what the `_extract_query_arguments` loop leaves in `query_args`; characterised by `QueryArgsFromKeys`, `QueryArgsFromRequired` and `ContractPartitionsParams` |
| HandlerDefs.PathArgError | calm/core.py:253-269 | `_extract_path_args` fails exactly when some capture is not accepted. The error is for the first such capture: "must be expected" when no parameter has its name, "must not be optional" when that parameter has a default |
| HandlerDefs.QueryArgsFromKeys | calm/core.py:277-279 | the query arguments are exactly the parameters that are not path arguments, with unique keys |
| HandlerDefs.QueryArgsFromRequired | calm/core.py:279 | a query argument is marked required exactly when its parameter has no default |
| HandlerDefs.ContractPartitionsParams | calm/core.py:271-279 | on success, the query keys are the parameters minus the captures and are disjoint from them; captures and query keys together are all the parameters; required iff no default |
| HandlerDefs.FirstParameterIgnored | calm/core.py:234-238 | the first parameter is never a query argument, and a capture of its name is rejected |
| HandlerDefs.HandlerDef.Init | calm/core.py:228-244 | `__init__` sets `uri`, `handler` and `_params`, empty path and query arguments, and no `consumes`/`produces` |
| HandlerDefs.HandlerDef.ExtractPathArgs | calm/core.py:248-269 | the path arguments become the captures, and the error is the one `PathArgError` specifies |
| HandlerDefs.HandlerDef.ExtractQueryArguments | calm/core.py:271-279 | the loop adds each non-path parameter with `required = no default`, as `QueryArgsFrom` specifies |
| HandlerDefs.HandlerDef.ExtractArguments | calm/core.py:281-284 | path arguments first; query arguments only when they succeed |
| HandlerDefs.HandlerDef.Create | calm/core.py:228-246 | construction fails with `PathArgError`'s error exactly when it specifies one; otherwise the new definition holds the captures as path arguments and `QueryArgsOf` as query arguments |
| Routing.Lower | calm/core.py:156 | `str.lower()` lower-cases each ASCII letter in place |
| Routing.VerbNameLowersToKey | calm/core.py:174-192 | the decorators' `"GET"`, `"POST"`, `"PUT"`, `"DELETE"` lower-case to the keys `MainHandler` reads |
| Routing.DefaultConfig | calm/core.py:40-44 | the default configuration; the state `CalmApp.constructor` establishes |
| Routing.Precedence | calm/core.py:150-151 | `getattr(function, attr, fallback)`: an attribute that exists wins, even when it is `None`; stated through `CalmApp.AddRoute` |
| Routing.WithRoute | calm/core.py:156 | `route_map[uri][method] = hd` sets that entry, adds `uri` and `method` as keys, and leaves other URIs and other methods of the same URI unchanged |
| Routing.RegisterAgainOverwrites | calm/core.py:156 | registering the same URI and method twice leaves only the second handler |
| Routing.DistinctRoutesCommute | calm/core.py:156 | registrations for different URI–method pairs can happen in either order |
| Routing.CalmApp.constructor | calm/core.py:40-52 | a new application has the default configuration and an empty route map |
| Routing.CalmApp.Configure | calm/core.py:54-60 | `configure(**kwargs)` overrides or adds exactly the given settings and keeps all others |
| Routing.CalmApp.AddRoute | calm/core.py:134-156 | the template is normalised and the handler definition built; on `DefinitionError` the route map is unchanged; otherwise the function's own `consumes`/`produces` win over the decorator's, and the definition is registered under the lower-cased method |
| Routing.CalmApp.Route | calm/core.py:158-192 | each decorator fails exactly when `PathArgError` reports an error, and then leaves the map unchanged; otherwise it builds the definition as `AddRoute` does and registers it under its lower-case method key |
| Dispatch.CollectQuery | calm/handler.py:61-73 | the `_get_query_args` loop from a given point; characterised by `CollectQueryFails` and `CollectQueryContents` |
| Dispatch.QueryValues | calm/handler.py:59-73 | what `_get_query_args` returns, starting from an empty dict; same lemmas |
| Dispatch.CollectQueryFails | calm/handler.py:61-71 | query collection fails exactly when a required argument is missing, with a `BadRequestError` naming the first one missing |
| Dispatch.CollectQueryContents | calm/handler.py:61-73 | the collected keys are the query arguments the request carries, each with the request's text; a missing optional argument gets no entry and no default |
| Dispatch.CastFrom | calm/handler.py:77-84 | the `_cast_args` loop from entry `i` on; characterised by `CastFromFails` and `CastFromResult` |
| Dispatch.CastAll | calm/handler.py:75-84 | `_cast_args` over all arguments; `CastKeepsKeys` and the `CastFrom` lemmas |
| Dispatch.CastFromFails | calm/handler.py:77-84 | casting fails exactly when the parser rejects an annotated value, with the parser's error for the first one |
| Dispatch.CastFromResult | calm/handler.py:77-84 | a successful cast keeps every key in place; unannotated values are unchanged, annotated ones become `parse(type, old)` |
| Dispatch.CastKeepsKeys | calm/handler.py:77-84 | casting keeps the key set and the values of unannotated arguments |
| Dispatch.UpdatedBody | calm/handler.py:86-95 | an empty body is left untouched; a non-UTF-8 body raises `UnicodeDecodeError`, which is not caught; UTF-8 that is not JSON is a `BadRequestError` with the fixed message; otherwise the body becomes `Parsed(loads(decode(bytes)))` |
| Dispatch.WriteResponse | calm/handler.py:130-146 | the written text is the JSON of `__json__()` when the result has it and of the result otherwise; it fails exactly when that value cannot be serialised, with a `ServerError` naming the result's type |
| Dispatch.ClientMessage | calm/handler.py:161 | `exc.message or str(exc)`; stated through `WriteError` |
| Dispatch.WriteClientError | calm/handler.py:158-165 | status `exc.code` and `{error_key: message}`; stated through `WriteError` |
| Dispatch.WriteServerError | calm/handler.py:167-175 | status 500 and `{error_key: fixed message}`; stated through `WriteError` and `ServerErrorsIndistinguishable` |
| Dispatch.WriteError | calm/handler.py:148-175 | a `ClientError` gives status `exc.code` and `{error_key: exc.message or str(exc)}`; anything else, or no exception, gives 500 and the fixed message |
| Dispatch.ServerErrorsIndistinguishable | calm/handler.py:148-175 | two non-client failures, or none, produce identical responses: no detail escapes |
| Dispatch.Pipeline | calm/handler.py:97-112 | the stages of `_handle_request` in order, first failure ending it; characterised by `NoHandlerIsMethodNotAllowed`, `InvokedOnlyAfterAllStages`, `InvokedWithCastArguments` and the error lemmas below |
| Dispatch.Respond | calm/handler.py:148-156 | the response for an outcome: 200 with the JSON text, or `write_error`'s answer; used by the end-to-end lemmas below |
| Dispatch.NoHandlerIsMethodNotAllowed | calm/handler.py:99-100 | with no handler for the method the outcome is 405, before any query, cast or body work |
| Dispatch.InvokedOnlyAfterAllStages | calm/handler.py:97-112 | the handler runs exactly when query collection, casting and body parsing all succeed; otherwise the request is untouched and the outcome is an error |
| Dispatch.MissingRequiredArgumentIsBadRequest | calm/handler.py:65-71 | a missing required query argument yields 400 naming the first missing one, whatever the body holds, and the handler does not run |
| Dispatch.InvokedWithCastArguments | calm/handler.py:103-110 | the handler is called with the query values merged over the path arguments, then cast |
| Dispatch.HandlerSeesQueryArguments | calm/handler.py:61-84 | the handler receives each query argument the request carries, as text unless annotated, and no entry for an absent optional one that is not also a path argument |
| Dispatch.MalformedBodyIsBadRequest | calm/handler.py:88-95 | a UTF-8 body that is not JSON yields 400 with "Malformed request body. JSON is expected." and the handler does not run |
| Dispatch.CastFailureIsReported | calm/handler.py:103-105 | once the query arguments are collected, a cast failure is what `write_error` reports, whatever the body holds, and the handler does not run |
| Dispatch.CastFailureIs400 | calm/handler.py:103-105 | when the parser reports every rejection as a 400 client error, a failed coercion is answered with 400, never 500 |
| Dispatch.HandlerExceptionIsReported | calm/handler.py:107-110 | an exception raised by the handler is answered by `write_error` |
| Dispatch.UndecodableBodyIsServerError | calm/handler.py:90-95 | a body that is not UTF-8 yields a bare 500 |
| Dispatch.UnserialisableResultIsServerError | calm/handler.py:139-144 | an unserialisable handler result yields a bare 500 that does not name its type |
| Dispatch.MainHandler.constructor | calm/handler.py:46-56 | the handler for each method is the route map's entry under its lower-case key, if any |
| Dispatch.MainHandler.GetQueryArgs | calm/handler.py:59-73 | the loop computes `QueryValues` over the handler's query arguments |
| Dispatch.MainHandler.CastArgs | calm/handler.py:75-84 | the loop computes `CastAll` over the handler's annotations |
| Dispatch.MainHandler.ParseAndUpdateBody | calm/handler.py:86-95 | the body is replaced by its parse as `UpdatedBody` specifies, or left as it was on error |
| Dispatch.MainHandler.HandleRequest | calm/handler.py:97-112 | result, new request and handler calls are those of the pipeline, in the source's order |
| Dispatch.MainHandler.Serve | calm/handler.py:114-128 | `get`/`post`/`put`/`delete` dispatch to that method's handler. The response is 200 with the JSON text, or what `write_error` writes. The request becomes the pipeline's request, with the body parsed, and the handler call is recorded exactly once, only when the handler runs |
| Dispatch.DefaultHandler.HandleRequest | calm/handler.py:186-187 | every request, whatever its arguments, raises `NotFoundError` |
| Dispatch.DefaultHandler.Serve | calm/handler.py:178-187 | every unmatched GET, POST, PUT or DELETE request is answered with 404 under the error key |

`HandlerDef` appears twice in the source, at calm/core.py:219-284 and again at
calm/handler.py:190-255. The two copies are the same, and `HandlerDefs` models
both.

## Left out

- Tornado itself is not modelled. That covers `make_app`, `Application`, URL
  matching, `get_query_argument`, `write` and `set_status`. A request is a
  value holding the query values `get_query_argument` would return, and a
  response is a status with a payload. `Serve` stands in for Tornado's
  `send_error` to `write_error` path.
- Regular-expression compilation (`re.compile(uri).groupindex`) is not
  modelled. The capture names are taken directly from the template by
  `PlaceholderNames`. This has consequences:
  - a template that `re.compile` would reject raises `re.error` in the
    source. Examples are a repeated name, an empty name, or the doubled group
    `PrefixNameCorrupts` exhibits. The model instead takes the capture list,
    repeats included, as it is.
  - `groupindex` would hold each name once. The model's capture list can
    hold a name more than once.
- The argument parser (`calm.codec`), `json.loads`, `json.dumps`, UTF-8
  decoding, `__json__` and the handler call are uninterpreted functions of
  `Runtime`. Exceptions they raise other than the modelled ones are not
  represented: a failing `__json__`, or a `ValueError` from `json.dumps`.
  A `ValueError` would end as a 500. So would a failing `__json__`, unless it
  raises a `ClientError`, which is answered with its own code and message.
- `inspect.signature` and `__annotations__` are inputs. A handler is a name,
  a list of (name, has-default) parameters and a map of annotations. The
  annotations are assumed truthy, which is the case for type objects;
  `_cast_args` skips falsy ones.
- `calm.ex` is not part of this model. Client errors carry their code as a
  field. The errors raised without arguments (`MethodNotAllowedError()` and
  `NotFoundError()`) carry an empty message and an empty `str`, because
  their class defaults are not available.
- Async versus sync invocation, and the warning logged for a sync handler,
  are left out. They do not change the result.
- `function.handler_def = handler_def` (calm/core.py:155) is left out. It
  only annotates the user's function object.
- Routing.CalmApp.Configure: modelled on a per-application `config`
  field. In the source, `config` is a class attribute shared by every
  `CalmApp` instance, so `configure` on one application changes them all.
- `MainHandler` holds the error key as a constant taken when it is built.
  The source reads `app.config['error_key']` each time it writes an error.
- Routing.Lower: lower-cases ASCII letters only. Python's `str.lower`
  covers all of Unicode, but the method names used are ASCII.
- HTTP methods other than GET, POST, PUT and DELETE are not modelled. `Verb`
  has only the four methods the decorators register. In the source, HEAD,
  PATCH or OPTIONS reach Tornado's default method, which raises
  `HTTPError(405)`. `write_error` does not treat that as a client error, so
  the answer is 500 with the fixed message, on matched and unmatched routes
  alike.
- The WebSocket decorator, `add_handler`, `custom_handler`, services and the
  Swagger generator are outside the modelled core.
